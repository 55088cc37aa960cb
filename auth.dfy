/**
 * The request authentication of packages/core/src/auth.ts: the state and
 * group claims of a verified token, the role they grant, and the ordered
 * checks of `requireAuth`. Token verification and every database lookup
 * are inputs.
 */
module Auth {
  import opened Wrappers
  import opened Text

  /** A claim of a token payload: absent, `null`, a scalar (as its string), or an array of scalars. */
  datatype Claim = Missing | NullClaim | Scalar(text: string) | Items(items: seq<string>)

  /** A verified token payload: the claims by name. */
  datatype Payload = Payload(claims: map<string, Claim>) {
    function Get(name: string): Claim {
      if name in claims then claims[name] else Missing
    }
  }

  /** `String(value)` of a present claim; an array renders its items joined by ','. */
  function ClaimText(c: Claim): string {
    match c
    case Missing => "undefined"
    case NullClaim => "null"
    case Scalar(t) => t
    case Items(items) => if items == [] then "" else Join(items, ',')
  }

  /** A claim JavaScript treats as false: absent, `null` or the empty string (an array is never false). */
  predicate Falsy(c: Claim) {
    c.Missing? || c.NullClaim? || c == Scalar("")
  }

  datatype Role = Admin | StateUser

  function RoleName(r: Role): string {
    match r
    case Admin => "admin"
    case StateUser => "state_user"
  }

  // ---------------------------------------------------------------------
  // The state claim
  // ---------------------------------------------------------------------

  /** The claims that may carry the user's state, in the order they are tried. */
  const StateClaims: seq<string> := ["custom:state_id", "state_id", "stateId", "custom:state_code", "state_code"]

  /** A candidate is used when it is present, not `null`, and not blank once trimmed. */
  predicate Usable(p: Payload, name: string) {
    var c := p.Get(name);
    !c.Missing? && !c.NullClaim? && Trim(ClaimText(c)) != ""
  }

  /** The first usable candidate among `names`, trimmed. */
  function FirstUsable(p: Payload, names: seq<string>): Option<string> {
    if names == [] then None
    else if Usable(p, names[0]) then Some(Trim(ClaimText(p.Get(names[0]))))
    else FirstUsable(p, names[1..])
  }

  /** `getTokenStateClaim`. */
  function TokenStateClaim(p: Payload): Option<string> {
    FirstUsable(p, StateClaims)
  }

  /** The `for (const candidate of candidates)` loop with its early return. */
  method GetTokenStateClaim(p: Payload) returns (claim: Option<string>)
    ensures claim == TokenStateClaim(p)
  {
    var candidates := StateClaims;
    for k := 0 to |candidates|
      invariant FirstUsable(p, candidates) == FirstUsable(p, candidates[k..])
    {
      var c := p.Get(candidates[k]);
      assert candidates[k..][1..] == candidates[k + 1..];
      if c.Missing? || c.NullClaim? {
        continue;
      }
      var value := Trim(ClaimText(c));
      if value != "" {
        return Some(value);
      }
    }
    return None;
  }

  /**
   * The claim found is the trimmed text of the first usable candidate: it
   * is usable, and every candidate before it is not.
   */
  lemma {:induction false} FirstUsableChoice(p: Payload, names: seq<string>)
    ensures FirstUsable(p, names).Some? ==>
      exists k :: 0 <= k < |names| && Usable(p, names[k])
        && FirstUsable(p, names).value == Trim(ClaimText(p.Get(names[k])))
        && forall j :: 0 <= j < k ==> !Usable(p, names[j])
    ensures FirstUsable(p, names).None? <==> forall k :: 0 <= k < |names| ==> !Usable(p, names[k])
  {
    if names != [] && !Usable(p, names[0]) {
      var rest := names[1..];
      FirstUsableChoice(p, rest);
      if FirstUsable(p, rest).Some? {
        var k :| 0 <= k < |rest| && Usable(p, rest[k])
          && FirstUsable(p, rest).value == Trim(ClaimText(p.Get(rest[k])))
          && forall j :: 0 <= j < k ==> !Usable(p, rest[j]);
        assert names[k + 1] == rest[k];
        forall j | 0 <= j < k + 1 ensures !Usable(p, names[j]) {
          if j > 0 { assert names[j] == rest[j - 1]; }
        }
      }
      forall k | 0 <= k < |rest| ensures names[k + 1] == rest[k] { }
    }
  }

  /** `getTokenStateClaim` returns the first usable candidate in the fixed order, trimmed and never blank. */
  lemma TokenStateClaimFirst(p: Payload)
    ensures TokenStateClaim(p).Some? ==>
      exists k :: 0 <= k < |StateClaims| && Usable(p, StateClaims[k])
        && TokenStateClaim(p).value == Trim(ClaimText(p.Get(StateClaims[k])))
        && forall j :: 0 <= j < k ==> !Usable(p, StateClaims[j])
    ensures TokenStateClaim(p).None? <==> forall k :: 0 <= k < |StateClaims| ==> !Usable(p, StateClaims[k])
    ensures TokenStateClaim(p).Some? ==> TokenStateClaim(p).value != ""
  {
    FirstUsableChoice(p, StateClaims);
  }

  /** The state table: the ids of the states, and the id of the state with each code. */
  datatype States = States(ids: set<string>, idOfCode: map<string, string>)

  /** `resolveStateIdFromTokenClaim`: the trimmed claim as an id, else its upper-cased form as a code. */
  function ResolveStateId(claim: string, states: States): Option<string> {
    var c := Trim(claim);
    if c == "" then None
    else if c in states.ids then Some(c)
    else if Upper(c) in states.idOfCode then Some(states.idOfCode[Upper(c)])
    else None
  }

  /** A resolved state id is the claim itself when it is an id, else the id of the claim's code. */
  lemma ResolveStateIdCases(claim: string, states: States)
    ensures IsBlank(claim) ==> ResolveStateId(claim, states).None?
    ensures !IsBlank(claim) && Trim(claim) in states.ids ==> ResolveStateId(claim, states) == Some(Trim(claim))
    ensures ResolveStateId(claim, states).Some? ==>
      ResolveStateId(claim, states).value in states.ids || ResolveStateId(claim, states).value in states.idOfCode.Values
    ensures ResolveStateId(claim, states).None? <==>
      IsBlank(claim) || (Trim(claim) !in states.ids && Upper(Trim(claim)) !in states.idOfCode)
  {
  }

  /** `request.headers.get("x-dev-state") || "DEV_STATE"`, trimmed and upper-cased. */
  function DevStateCode(header: string): string {
    Upper(Trim(if header == "" then "DEV_STATE" else header))
  }

  // ---------------------------------------------------------------------
  // Groups and roles
  // ---------------------------------------------------------------------

  /** `getGroups`: nothing for a false claim, each item of an array, else the one scalar. */
  function Groups(p: Payload): seq<string> {
    var c := p.Get("cognito:groups");
    if Falsy(c) then []
    else match c
      case Items(items) => items
      case _ => [ClaimText(c)]
  }

  /** `getGroups`: no groups for a false claim, the items of an array in order, and one group for any other value. */
  lemma GroupsCases(p: Payload)
    ensures Falsy(p.Get("cognito:groups")) ==> Groups(p) == []
    ensures p.Get("cognito:groups").Items? ==> Groups(p) == p.Get("cognito:groups").items
    ensures p.Get("cognito:groups").Scalar? && p.Get("cognito:groups").text != "" ==> Groups(p) == [p.Get("cognito:groups").text]
    ensures Groups(p) == [] <==> Falsy(p.Get("cognito:groups")) || p.Get("cognito:groups") == Items([])
  {
  }

  /** A group name, trimmed and lower-cased. */
  function NormalizedGroup(g: string): string {
    Lower(Trim(g))
  }

  /** The group names as `roleFromGroups` compares them. */
  function NormalizedGroups(groups: seq<string>): (names: seq<string>)
    ensures |names| == |groups|
  {
    seq(|groups|, k requires 0 <= k < |groups| => NormalizedGroup(groups[k]))
  }

  /** `roleFromGroups`: 'admin' before 'state_user'. */
  function RoleFromGroups(groups: seq<string>): Option<Role> {
    var names := NormalizedGroups(groups);
    if "admin" in names then Some(Admin)
    else if "state_user" in names then Some(StateUser)
    else None
  }

  /** Some group of `groups`, trimmed and lower-cased, is `name`. */
  predicate InGroup(groups: seq<string>, name: string) {
    exists k :: 0 <= k < |groups| && NormalizedGroup(groups[k]) == name
  }

  lemma NormalizedMember(groups: seq<string>, name: string)
    ensures name in NormalizedGroups(groups) <==> InGroup(groups, name)
  {
    var names := NormalizedGroups(groups);
    if name in names {
      var k :| 0 <= k < |names| && names[k] == name;
      assert NormalizedGroup(groups[k]) == name;
    }
    if InGroup(groups, name) {
      var k :| 0 <= k < |groups| && NormalizedGroup(groups[k]) == name;
      assert names[k] == name;
    }
  }

  /** The role granted by the groups: admin wins, and no recognised group grants nothing. */
  lemma RoleFromGroupsPrecedence(groups: seq<string>)
    ensures RoleFromGroups(groups) == Some(Admin) <==> InGroup(groups, "admin")
    ensures RoleFromGroups(groups) == Some(StateUser) <==> !InGroup(groups, "admin") && InGroup(groups, "state_user")
    ensures RoleFromGroups(groups).None? <==> !InGroup(groups, "admin") && !InGroup(groups, "state_user")
  {
    NormalizedMember(groups, "admin");
    NormalizedMember(groups, "state_user");
  }

  /** Group names match whatever their case and surrounding white space. */
  lemma PaddedAdminGroup(g: string)
    requires Trim(g) == "Admin"
    ensures RoleFromGroups([g, "state_user"]) == Some(Admin)
  {
    assert NormalizedGroups([g, "state_user"])[0] == "admin";
  }

  /** What the caller requires of the role. */
  datatype Expectation = AnyRole | OneOf(roles: seq<Role>) | Exactly(role: Role)

  /** `ensureRole`: any role, membership in a list (an empty list admits none), or one role. */
  predicate EnsureRole(expected: Expectation, role: Role) {
    match expected
    case AnyRole => true
    case OneOf(roles) => role in roles
    case Exactly(r) => r == role
  }

  /** No expectation admits every role, a list admits its members (an empty list none), and a single role only itself. */
  lemma EnsureRoleCases(role: Role, other: Role)
    ensures EnsureRole(AnyRole, role)
    ensures !EnsureRole(OneOf([]), role)
    ensures EnsureRole(OneOf([other, role]), role)
    ensures EnsureRole(Exactly(other), role) <==> other == role
    ensures EnsureRole(OneOf([other]), role) <==> other == role
  {
  }

  // ---------------------------------------------------------------------
  // requireAuth
  // ---------------------------------------------------------------------

  /** A user row; `stateId` is '' when the user has no state. */
  datatype User = User(id: string, role: Role, stateId: string, cognitoSub: string, email: Option<string>)

  datatype AuthContext = AuthContext(role: Role, cognitoSub: string, groups: seq<string>, tokenStateId: Option<string>, user: User)

  /** Why a request is refused. */
  datatype Denial =
    | MissingBearer
    | TokenRejected
    | RoleMissing
    | StateClaimInvalid
    | RoleForbidden(role: Role)
    | SubMissing
    | NotProvisioned
    | NoStateAssignment
    | RoleMismatch
    | StateMismatch

  datatype AuthResult = Granted(context: AuthContext) | Denied(status: nat, reason: Denial)

  /** The headers `requireAuth` reads; '' stands for an absent header. */
  datatype Request = Request(authorization: string, devRole: string, devSub: string, devEmail: string, devState: string)

  /** A resolved state id that JavaScript treats as true. */
  predicate Truthy(id: Option<string>) {
    id.Some? && id.value != ""
  }

  /** The token after "Bearer ", when the header has that prefix. */
  function BearerToken(req: Request): Option<string> {
    if req.authorization != "" && StartsWith(req.authorization, "Bearer ") then Some(req.authorization[7..]) else None
  }

  /** `String(payload.sub || "")`. */
  function Sub(p: Payload): string {
    var c := p.Get("sub");
    if Falsy(c) then "" else ClaimText(c)
  }

  /** The state id resolved from the token's state claim. */
  function TokenStateId(p: Payload, states: States): Option<string> {
    var claim := TokenStateClaim(p);
    if claim.Some? && claim.value != "" then ResolveStateId(claim.value, states) else None
  }

  /** The checks on a provisioned user, in order. */
  function UserChecks(role: Role, sub: string, groups: seq<string>, tokenStateId: Option<string>, user: User): AuthResult {
    if user.stateId == "" then Denied(403, NoStateAssignment)
    else if user.role != role then Denied(403, RoleMismatch)
    else if Truthy(tokenStateId) && user.stateId != tokenStateId.value then Denied(403, StateMismatch)
    else Granted(AuthContext(role, sub, groups, tokenStateId, user))
  }

  /** The checks after the token is verified, in order. */
  function PayloadChecks(p: Payload, expected: Expectation, states: States, users: map<string, User>): AuthResult {
    var groups := Groups(p);
    var role := RoleFromGroups(groups);
    if role.None? then Denied(403, RoleMissing)
    else
      var tokenStateId := TokenStateId(p, states);
      if role.value == StateUser && !Truthy(tokenStateId) then Denied(403, StateClaimInvalid)
      else if !EnsureRole(expected, role.value) then Denied(403, RoleForbidden(role.value))
      else
        var sub := Sub(p);
        if sub == "" then Denied(401, SubMissing)
        else if sub !in users then Denied(403, NotProvisioned)
        else UserChecks(role.value, sub, groups, tokenStateId, users[sub])
  }

  /** `requireAuth` outside bypass mode; `verify` is the token verification, `None` when it throws. */
  function Authorize(req: Request, expected: Expectation, verify: string -> Option<Payload>, states: States, users: map<string, User>): AuthResult {
    match BearerToken(req)
    case None => Denied(401, MissingBearer)
    case Some(token) =>
      match verify(token)
      case None => Denied(401, TokenRejected)
      case Some(p) => PayloadChecks(p, expected, states, users)
  }

  /** The role bypass mode grants: admin only for the exact header 'admin'. */
  function BypassRole(header: string): Role {
    if header == "admin" then Admin else StateUser
  }

  /**
   * `requireAuth` in bypass mode, after the development state and user
   * are upserted: `stateIdOf` gives the id of the state with a code, and
   * `newUserId` the id a created user gets.
   */
  function BypassAuthorize(req: Request, expected: Expectation, users: map<string, User>, stateIdOf: string -> string, newUserId: string): AuthResult {
    var role := BypassRole(req.devRole);
    var sub := if req.devSub != "" then req.devSub else "dev-" + RoleName(role);
    var email := if req.devEmail != "" then req.devEmail else "dev-" + RoleName(role) + "@local.test";
    var stateId := stateIdOf(DevStateCode(req.devState));
    var user := if sub in users then users[sub].(stateId := stateId) else User(newUserId, role, stateId, sub, Some(email));
    if !EnsureRole(expected, role) then Denied(403, RoleForbidden(role))
    else Granted(AuthContext(role, sub, [RoleName(role)], Some(stateId), user))
  }

  /** `requireAuth`, step by step, with its early returns. */
  method RequireAuth(req: Request, expected: Expectation, verify: string -> Option<Payload>, states: States, users: map<string, User>)
    returns (result: AuthResult)
    ensures result == Authorize(req, expected, verify, states, users)
  {
    var header := req.authorization;
    if header == "" || !StartsWith(header, "Bearer ") {
      return Denied(401, MissingBearer);
    }
    var token := header[|"Bearer "|..];
    var verified := verify(token);
    if verified.None? {
      return Denied(401, TokenRejected);
    }
    var payload := verified.value;
    var groups := Groups(payload);
    var role := RoleFromGroups(groups);
    if role.None? {
      return Denied(403, RoleMissing);
    }
    var tokenStateClaim := GetTokenStateClaim(payload);
    var tokenStateId: Option<string> := None;
    if tokenStateClaim.Some? && tokenStateClaim.value != "" {
      tokenStateId := ResolveStateId(tokenStateClaim.value, states);
    }
    if role.value == StateUser && (tokenStateId.None? || tokenStateId.value == "") {
      return Denied(403, StateClaimInvalid);
    }
    if !EnsureRole(expected, role.value) {
      return Denied(403, RoleForbidden(role.value));
    }
    var cognitoSub := Sub(payload);
    if cognitoSub == "" {
      return Denied(401, SubMissing);
    }
    if cognitoSub !in users {
      return Denied(403, NotProvisioned);
    }
    var user := users[cognitoSub];
    if user.stateId == "" {
      return Denied(403, NoStateAssignment);
    }
    if user.role != role.value {
      return Denied(403, RoleMismatch);
    }
    if tokenStateId.Some? && tokenStateId.value != "" && user.stateId != tokenStateId.value {
      return Denied(403, StateMismatch);
    }
    result := Granted(AuthContext(role.value, cognitoSub, groups, tokenStateId, user));
  }

  /**
   * The checks run in a fixed order and the first that fails decides:
   * once the earlier checks pass, the request is refused for this check
   * exactly when it fails.
   */
  lemma ChecksInOrder(req: Request, expected: Expectation, verify: string -> Option<Payload>, states: States, users: map<string, User>)
    ensures var r := Authorize(req, expected, verify, states, users);
      && (r == Denied(401, MissingBearer) <==> BearerToken(req).None?)
      && (BearerToken(req).Some? ==> (r == Denied(401, TokenRejected) <==> verify(BearerToken(req).value).None?))
      && (BearerToken(req).Some? && verify(BearerToken(req).value).Some? ==>
            var p := verify(BearerToken(req).value).value;
            var role := RoleFromGroups(Groups(p));
            var tsi := TokenStateId(p, states);
            var sub := Sub(p);
            && (r == Denied(403, RoleMissing) <==> role.None?)
            && (role.Some? ==> (r == Denied(403, StateClaimInvalid) <==> role.value == StateUser && !Truthy(tsi)))
            && (role.Some? && (role.value == StateUser ==> Truthy(tsi)) ==>
                  && (r == Denied(403, RoleForbidden(role.value)) <==> !EnsureRole(expected, role.value))
                  && (EnsureRole(expected, role.value) ==>
                        && (r == Denied(401, SubMissing) <==> sub == "")
                        && (sub != "" ==> (r == Denied(403, NotProvisioned) <==> sub !in users))
                        && (sub != "" && sub in users ==>
                              && (r == Denied(403, NoStateAssignment) <==> users[sub].stateId == "")
                              && (users[sub].stateId != "" ==> (r == Denied(403, RoleMismatch) <==> users[sub].role != role.value))
                              && (users[sub].stateId != "" && users[sub].role == role.value ==>
                                    (r == Denied(403, StateMismatch) <==> Truthy(tsi) && users[sub].stateId != tsi.value))))))
  {
  }

  /**
   * A granted request carries the verified subject, a provisioned user
   * with a state, the user's role equal to the token's, and the user's
   * state equal to the token's whenever the token names one.
   */
  lemma GrantedContext(req: Request, expected: Expectation, verify: string -> Option<Payload>, states: States, users: map<string, User>)
    requires Authorize(req, expected, verify, states, users).Granted?
    ensures var ctx := Authorize(req, expected, verify, states, users).context;
      && ctx.cognitoSub != "" && ctx.cognitoSub in users && ctx.user == users[ctx.cognitoSub]
      && ctx.user.stateId != ""
      && ctx.user.role == ctx.role
      && EnsureRole(expected, ctx.role)
      && (Truthy(ctx.tokenStateId) ==> ctx.user.stateId == ctx.tokenStateId.value)
      && (ctx.role == StateUser ==> Truthy(ctx.tokenStateId))
  {
  }

  /** Refusals before a verified token, or without a subject, are 401; every other refusal is 403. */
  lemma DenialStatus(req: Request, expected: Expectation, verify: string -> Option<Payload>, states: States, users: map<string, User>)
    requires Authorize(req, expected, verify, states, users).Denied?
    ensures var r := Authorize(req, expected, verify, states, users);
      r.status == 401 <==> r.reason.MissingBearer? || r.reason.TokenRejected? || r.reason.SubMissing?
    ensures Authorize(req, expected, verify, states, users).status in {401, 403}
  {
  }

  /** In bypass mode the role comes from the header, the state from the header's code, and only the role is checked. */
  lemma BypassOutcome(req: Request, expected: Expectation, users: map<string, User>, stateIdOf: string -> string, newUserId: string)
    ensures var r := BypassAuthorize(req, expected, users, stateIdOf, newUserId);
      && (r.Granted? <==> EnsureRole(expected, BypassRole(req.devRole)))
      && (r.Granted? ==>
            && (r.context.role == Admin <==> req.devRole == "admin")
            && r.context.tokenStateId == Some(stateIdOf(DevStateCode(req.devState)))
            && r.context.user.stateId == stateIdOf(DevStateCode(req.devState)))
  {
  }

  /** Without an `x-dev-state` header the development state code is DEV_STATE. */
  lemma DevStateDefault()
    ensures DevStateCode("") == "DEV_STATE"
  {
    assert Trim("DEV_STATE") == "DEV_STATE";
  }
}
