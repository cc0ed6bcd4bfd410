/** The request gates every protected route passes through: token extraction and
    user lookup (`verifyToken`), and the admin and kitchen-owner role checks. */
module AuthGate {
  import opened Common

  /** What `verifyToken` loads into `req.user`: the columns id, fullName, email, role. */
  datatype User = User(id: int, fullName: string, email: string, role: string)

  /** A gate either hands the request on to the next handler or answers it. */
  datatype Verdict = Next | Deny(status: int, message: string)

  datatype AuthOutcome = Authenticated(user: User) | Unauthorized(message: string)

  const BearerPrefix: string := "Bearer "
  const NoTokenMessage: string := "Access denied. No token provided."
  const UnknownUserMessage: string := "Invalid token. User not found."
  const InvalidTokenMessage: string := "Invalid token."

  predicate OccursAt(s: string, pat: string, j: int) {
    0 <= j && j + |pat| <= |s| && s[j..j + |pat|] == pat
  }

  /** The first position at or after `from` where `pat` occurs in `s`. */
  function IndexOfFrom(s: string, pat: string, from: nat): (r: Option<nat>)
    decreases |s| - from
    ensures r.Some? ==> from <= r.value && OccursAt(s, pat, r.value)
    ensures r.Some? ==> forall j :: from <= j < r.value ==> !OccursAt(s, pat, j)
    ensures r.None? ==> forall j :: from <= j ==> !OccursAt(s, pat, j)
  {
    if from + |pat| > |s| then None
    else if s[from..from + |pat|] == pat then Some(from)
    else IndexOfFrom(s, pat, from + 1)
  }

  /** `s.replace(pat, '')` with a string pattern: only the first occurrence goes. */
  function RemoveFirst(s: string, pat: string): (r: string)
    ensures (forall j :: 0 <= j ==> !OccursAt(s, pat, j)) ==> r == s
    ensures forall i :: OccursAt(s, pat, i) && (forall j :: 0 <= j < i ==> !OccursAt(s, pat, j)) ==>
              r == s[..i] + s[i + |pat|..]
  {
    match IndexOfFrom(s, pat, 0)
    case None => s
    case Some(i) => s[..i] + s[i + |pat|..]
  }

  /** `req.header('Authorization')?.replace('Bearer ', '')`. */
  function ExtractToken(header: Field): (r: Field)
    ensures header.None? <==> r.None?
  {
    match header
    case None => None
    case Some(h) => Some(RemoveFirst(h, BearerPrefix))
  }

  /** A well-formed header yields exactly the text after the prefix. */
  lemma BearerHeaderYieldsToken(t: string)
    ensures ExtractToken(Some(BearerPrefix + t)) == Some(t)
  {
    var h := BearerPrefix + t;
    assert h[0..|BearerPrefix|] == BearerPrefix;
    assert OccursAt(h, BearerPrefix, 0);
    assert RemoveFirst(h, BearerPrefix) == h[..0] + h[|BearerPrefix|..];
    assert h[..0] + h[|BearerPrefix|..] == t;
    assert ExtractToken(Some(h)) == Some(RemoveFirst(h, BearerPrefix));
  }

  /** A header that never mentions the prefix is passed on verbatim as the token. */
  lemma HeaderWithoutPrefixIsToken(h: string)
    requires forall j :: 0 <= j ==> !OccursAt(h, BearerPrefix, j)
    ensures ExtractToken(Some(h)) == Some(h)
  {
  }

  /** The decision `verifyToken` takes. `verify` stands for `jwt.verify` with the
      server's secret: the user id in the token, or None where it throws.
      `users` is the users table, searched by id. */
  function Authenticate(header: Field, verify: string -> Option<int>, users: seq<User>): (r: AuthOutcome)
    ensures r.Authenticated? <==>
              Truthy(ExtractToken(header)) && verify(ExtractToken(header).value).Some? &&
              exists i :: 0 <= i < |users| && users[i].id == verify(ExtractToken(header).value).value
    ensures r.Authenticated? ==> r.user in users && r.user.id == verify(ExtractToken(header).value).value
    ensures !Truthy(ExtractToken(header)) ==> r == Unauthorized(NoTokenMessage)
  {
    var token := ExtractToken(header);
    if !Truthy(token) then Unauthorized(NoTokenMessage)
    else match verify(token.value)
      case None => Unauthorized(InvalidTokenMessage)
      case Some(uid) =>
        match FirstIndex(users, (u: User) => u.id == uid)
        case None => Unauthorized(UnknownUserMessage)
        case Some(k) => Authenticated(users[k])
  }

  /** `verifyAdmin`. */
  function VerifyAdmin(user: User): (v: Verdict)
    ensures v == Next <==> user.role == "admin"
    ensures v != Next ==> v.status == 403
  {
    if user.role != "admin" then Deny(403, "Access denied. Admin role required.") else Next
  }

  /** `verifyKitchenOwner`. */
  function VerifyKitchenOwner(user: User): (v: Verdict)
    ensures v == Next <==> user.role == "kitchen_owner" || user.role == "admin"
    ensures v != Next ==> v.status == 403
  {
    if user.role != "kitchen_owner" && user.role != "admin" then
      Deny(403, "Access denied. Kitchen owner role required.")
    else Next
  }

  /** Every caller admitted as admin is also admitted as kitchen owner. */
  lemma AdminPassesKitchenOwnerGate(user: User)
    ensures VerifyAdmin(user) == Next ==> VerifyKitchenOwner(user) == Next
  {
  }

  /** An incoming request; `verifyToken` fills in `user`. */
  class Request {
    var authorization: Field
    var user: Option<User>

    constructor (authorization: Field)
      ensures this.authorization == authorization && user == None
    {
      this.authorization := authorization;
      user := None;
    }

    /** `verifyToken`: answers 401 or sets `req.user` and calls the next handler. */
    method VerifyToken(verify: string -> Option<int>, users: seq<User>) returns (v: Verdict)
      modifies this`user
      ensures Authenticate(authorization, verify, users).Authenticated? ==>
                v == Next && user == Some(Authenticate(authorization, verify, users).user)
      ensures Authenticate(authorization, verify, users).Unauthorized? ==>
                v == Deny(401, Authenticate(authorization, verify, users).message) && user == old(user)
    {
      var token := ExtractToken(authorization);
      if !Truthy(token) {
        return Deny(401, NoTokenMessage);
      }
      var decoded := verify(token.value);
      if decoded.None? {
        return Deny(401, InvalidTokenMessage);
      }
      var found := FirstIndex(users, (u: User) => u.id == decoded.value);
      if found.None? {
        return Deny(401, UnknownUserMessage);
      }
      user := Some(users[found.value]);
      v := Next;
    }
  }
}
