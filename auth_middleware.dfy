/** The authentication middleware: reading a bearer token (in the spirit
    of section 2.1 of RFC 6750, without checking the scheme word), mapping
    the JWT verification outcome to 401 or 403, and role gating. */
module AuthMiddleware {
  import opened Common
  import opened Text
  import opened Json

  const TokenMissing := "Accès non autorisé : Token manquant."
  const TokenExpired := "Accès interdit : Token expiré."
  const TokenInvalid := "Accès interdit : Token invalide."
  const RoleUndefined := "Accès interdit : Rôle utilisateur non défini dans le token."
  const RoleInsufficient := "Accès interdit : Permissions insuffisantes pour ce rôle."

  /** `authHeader && authHeader.split(' ')[1]`, with `None` for `null` or
      `undefined`. An empty header is falsy and is itself the result. */
  function ExtractToken(header: Option<string>): (t: Option<string>)
    ensures t.None? <==> header.None? || (header.value != "" && ' ' !in header.value)
    ensures header == Some("") ==> t == Some("")
    ensures t.Some? && header.value != "" ==> ' ' !in t.value
  {
    match header
    case None => None
    case Some(h) =>
      if h == "" then Some("")
      else
        var pieces := Split(h, ' ');
        SplitHasSecondPiece(h, ' ');
        if |pieces| >= 2 then Some(pieces[1]) else None
  }

  /** Splitting `scheme token rest` on spaces puts the token second. */
  lemma SecondPiece(scheme: string, token: string, rest: string)
    requires ' ' !in scheme && ' ' !in token
    requires rest == [] || rest[0] == ' '
    ensures |Split(scheme + [' '] + (token + rest), ' ')| >= 2
    ensures Split(scheme + [' '] + (token + rest), ' ')[1] == token
  {
    var t := token + rest;
    SplitCons(scheme, ' ', t);
    var tail := Split(t, ' ');
    assert Split(scheme + [' '] + t, ' ') == [scheme] + tail;
    FirstPiece(token, rest);
    assert tail[0] == token;
  }

  /** The first piece of `token rest` is the token. */
  lemma FirstPiece(token: string, rest: string)
    requires ' ' !in token
    requires rest == [] || rest[0] == ' '
    ensures Split(token + rest, ' ')[0] == token
  {
    if rest == [] {
      assert token + rest == token;
      SplitNoSeparator(token, ' ');
    } else {
      var u := rest[1..];
      assert token + rest == token + [' '] + u;
      SplitCons(token, ' ', u);
    }
  }

  /** Whatever the first word is, the token is the word after the first
      space. */
  lemma SchemeNotChecked(scheme: string, token: string, rest: string)
    requires ' ' !in scheme && ' ' !in token
    requires rest == [] || rest[0] == ' '
    ensures ExtractToken(Some(scheme + [' '] + (token + rest))) == Some(token)
  {
    SecondPiece(scheme, token, rest);
    var h := scheme + [' '] + (token + rest);
    assert h[|scheme|] == ' ';
  }

  /** What `jwt.verify` reports: the decoded claims, or the name of the
      error it raised. */
  datatype VerifyOutcome = Verified(claims: Json) | Failed(errorName: string)

  /** The middleware's decision: continue with `req.user` set to the
      claims, or answer with a status and a message. */
  datatype AuthResult = Proceed(user: Json) | Deny(status: nat, message: string)

  /** `authenticateToken`, with `verify` standing for `jwt.verify` under
      the server's secret. */
  function AuthenticateToken(verify: string -> VerifyOutcome, header: Option<string>): (r: AuthResult)
    ensures ExtractToken(header).None? <==> r == Deny(401, TokenMissing)
    ensures r.Proceed? <==>
      ExtractToken(header).Some? && verify(ExtractToken(header).value).Verified?
    ensures r.Proceed? ==> r.user == verify(ExtractToken(header).value).claims
    ensures r == Deny(403, TokenExpired) <==>
      ExtractToken(header).Some? && verify(ExtractToken(header).value) == Failed("TokenExpiredError")
    ensures r.Deny? ==> r.status in {401, 403}
  {
    match ExtractToken(header)
    case None => Deny(401, TokenMissing)
    case Some(token) =>
      match verify(token)
      case Verified(claims) => Proceed(claims)
      case Failed(name) =>
        if name == "TokenExpiredError" then Deny(403, TokenExpired) else Deny(403, TokenInvalid)
  }

  /** An empty `Authorization` header is not "missing": the empty string
      goes to verification, so the answer is never 401. */
  lemma EmptyHeaderIsVerified(verify: string -> VerifyOutcome)
    ensures AuthenticateToken(verify, Some("")) != Deny(401, TokenMissing)
    ensures verify("").Failed? && verify("").errorName != "TokenExpiredError" ==>
      AuthenticateToken(verify, Some("")) == Deny(403, TokenInvalid)
  {
  }

  /** A well-formed `Bearer <token>` header hands exactly `<token>` to
      verification. */
  lemma BearerHeader(verify: string -> VerifyOutcome, token: string)
    requires ' ' !in token
    ensures AuthenticateToken(verify, Some("Bearer " + token)) ==
      match verify(token)
      case Verified(c) => Proceed(c)
      case Failed(n) => if n == "TokenExpiredError" then Deny(403, TokenExpired) else Deny(403, TokenInvalid)
  {
    assert "Bearer " + token == "Bearer" + [' '] + (token + []);
    SchemeNotChecked("Bearer", token, []);
  }

  /** The `roles` argument of `authorizeRole`: one role or a list. */
  datatype Roles = OneRole(role: string) | RoleList(roles: seq<string>)

  /** `Array.isArray(roles) ? roles : [roles]`: one role becomes a
      one-element list, a list keeps its roles in order. */
  function AllowedRoles(roles: Roles): (r: seq<Json>)
    ensures forall x :: x in r ==> x.JStr?
    ensures roles.OneRole? ==> r == [JStr(roles.role)]
    ensures roles.RoleList? ==>
      |r| == |roles.roles| && forall i :: 0 <= i < |r| ==> r[i] == JStr(roles.roles[i])
    ensures forall s: string :: JStr(s) in r <==>
      (if roles.OneRole? then s == roles.role else s in roles.roles)
  {
    match roles
    case OneRole(a) => [JStr(a)]
    case RoleList(xs) => seq(|xs|, i requires 0 <= i < |xs| => JStr(xs[i]))
  }

  /** The user's role claim as a list: an array as it is, anything else as
      a one-element list. */
  function UserRoles(role: Json): seq<Json>
  {
    if role.JArr? then role.items else [role]
  }

  /** `userRoles.some(role => allowedRoles.includes(role))`. */
  function SomeIncluded(xs: seq<Json>, allowed: seq<Json>): (r: bool)
    ensures r <==> exists i :: 0 <= i < |xs| && xs[i] in allowed
  {
    if xs == [] then false
    else if xs[0] in allowed then true
    else
      var r := SomeIncluded(xs[1..], allowed);
      assert forall i :: 1 <= i < |xs| ==> xs[i] == xs[1..][i - 1];
      r
  }

  lemma MeetIff(xs: seq<Json>, allowed: seq<Json>)
    ensures SomeIncluded(xs, allowed) <==> (set x | x in xs) * (set a | a in allowed) != {}
  {
    if SomeIncluded(xs, allowed) {
      var i :| 0 <= i < |xs| && xs[i] in allowed;
      assert xs[i] in (set x | x in xs) * (set a | a in allowed);
    }
    if (set x | x in xs) * (set a | a in allowed) != {} {
      var y :| y in (set x | x in xs) * (set a | a in allowed);
      assert y in xs && y in allowed;
    }
  }

  /** Access as a set question: the user's roles meet the allowed roles. */
  predicate RolesMeet(user: Json, roles: Roles)
    requires Get(user, "role").Some?
  {
    (set x | x in UserRoles(Get(user, "role").value)) * (set a | a in AllowedRoles(roles)) != {}
  }

  /** `authorizeRole(roles)` applied to `req.user`: 403 when there is no
      user or no truthy role; access exactly when some role of the user is
      among the allowed ones; 403 otherwise. */
  function AuthorizeRole(roles: Roles, user: Option<Json>): (r: AuthResult)
    ensures !Truthy(user) || !Truthy(Get(user.value, "role")) ==> r == Deny(403, RoleUndefined)
    ensures Truthy(user) && Truthy(Get(user.value, "role")) ==>
      (r == Proceed(user.value) <==> RolesMeet(user.value, roles)) &&
      (r == Deny(403, RoleInsufficient) <==> !RolesMeet(user.value, roles))
  {
    if !Truthy(user) || !Truthy(Get(user.value, "role")) then Deny(403, RoleUndefined)
    else
      var mine, allowed := UserRoles(Get(user.value, "role").value), AllowedRoles(roles);
      var ok := SomeIncluded(mine, allowed);
      MeetIff(mine, allowed);
      if ok then Proceed(user.value) else Deny(403, RoleInsufficient)
  }

  /** A single-string role claim is compared as it is: the user passes a
      one-role gate exactly when the names are equal. */
  lemma SingleRoleGate(user: Json, mine: string, wanted: string)
    requires Get(user, "role") == Some(JStr(mine)) && mine != ""
    ensures AuthorizeRole(OneRole(wanted), Some(user)).Proceed? <==> mine == wanted
  {
    assert UserRoles(JStr(mine)) == [JStr(mine)];
    if mine != wanted {
      assert JStr(mine) !in AllowedRoles(OneRole(wanted));
    }
  }
}
