/** The Express middleware that stands in front of the handlers: `isAdmin` and `isVendor` of the
    server, `userAuth` and `adminAuth` of the backend. Each is a chain of early exits that either
    answers the request or passes it on to the next handler, possibly with a field added. */
module Guards {
  import opened Common
  import opened Users
  import opened Tables

  /** The payload of a verified token; `userId` may be absent. */
  datatype Claims = Claims(userId: Option<Id>)

  /** `jwt.verify` under one secret, as the tokens it accepts and the payload each decodes to. A
      token outside the map is one whose signature, expiry or format fails, so `jwt.verify`
      throws. */
  type Verifier = map<string, Claims>

  /** The parts of an Express request the guards read or write: the `token` cookie, and the
      `req.user` and `req.userId` fields that guards fill in. */
  datatype Request = Request(token: Option<string>, user: Option<User>, userId: Option<Id>)

  /** A guard's JSON reply. `key` is the name under which the text is sent: `isAdmin` spells it
      "messsage" in two of its replies. */
  datatype GuardReply = GuardReply(status: int, success: Option<bool>, key: string, message: string)

  /** `Next` calls the next handler with the (possibly extended) request; `NoResponse` is a guard
      that neither answers nor calls `next`, so the request hangs. */
  datatype Outcome = Next(req: Request) | Respond(reply: GuardReply) | NoResponse

  /** `findById(id)`; an absent id (`undefined`) finds nothing. */
  function LookupUser(users: seq<User>, id: Option<Id>): Option<User>
  {
    if id.None? then None else Find(users, UserId, id.value)
  }

  /** The token cookie is present, non-empty, and verifies. */
  predicate Decodes(req: Request, verify: Verifier)
  {
    Truthy(req.token) && req.token.value in verify
  }

  /** The user the verified token names, if any. */
  function ClaimedUser(req: Request, verify: Verifier, users: seq<User>): Option<User>
  {
    if Decodes(req, verify) then LookupUser(users, verify[req.token.value].userId) else None
  }

  predicate HasRole(u: Option<User>, role: string)
  {
    u.Some? && u.value.role == role
  }

  /** `isAdmin` (server): no token gives 401; a token that fails to verify is only logged, so no
      reply is sent; an unknown user gives 401 and a non-admin 403, both under the misspelled
      key; otherwise `req.user` is set to the user and `next` is called. */
  function IsAdmin(req: Request, verify: Verifier, users: seq<User>): (o: Outcome)
    ensures o.Next? <==> HasRole(ClaimedUser(req, verify, users), "admin")
    ensures o.Next? ==> o.req == req.(user := ClaimedUser(req, verify, users))
    ensures !Truthy(req.token) ==> o == Respond(GuardReply(401, None, "message", "Unauthorized: No token provided"))
    ensures Truthy(req.token) && !Decodes(req, verify) ==> o == NoResponse
    ensures Decodes(req, verify) && ClaimedUser(req, verify, users).None? ==>
              o == Respond(GuardReply(401, None, "messsage", "'user not found'"))
    ensures ClaimedUser(req, verify, users).Some? && !HasRole(ClaimedUser(req, verify, users), "admin") ==>
              o == Respond(GuardReply(403, None, "messsage", "Unauthorized: User is not an admin"))
  {
    if !Truthy(req.token) then
      Respond(GuardReply(401, None, "message", "Unauthorized: No token provided"))
    else if req.token.value !in verify then
      NoResponse
    else
      var user := LookupUser(users, verify[req.token.value].userId);
      if user.None? then
        Respond(GuardReply(401, None, "messsage", "'user not found'"))
      else if user.value.role != "admin" then
        Respond(GuardReply(403, None, "messsage", "Unauthorized: User is not an admin"))
      else
        Next(req.(user := user))
  }

  /** `isVendor` (server): the same chain with role "vendor", proper keys, and a 500 reply when the
      token fails to verify. */
  function IsVendor(req: Request, verify: Verifier, users: seq<User>): (o: Outcome)
    ensures o.Next? <==> HasRole(ClaimedUser(req, verify, users), "vendor")
    ensures o.Next? ==> o.req == req.(user := ClaimedUser(req, verify, users))
    ensures !Truthy(req.token) ==> o == Respond(GuardReply(401, None, "message", "Unauthorized: No token provided"))
    ensures Truthy(req.token) && !Decodes(req, verify) ==> o == Respond(GuardReply(500, None, "message", "Server error"))
    ensures Decodes(req, verify) && ClaimedUser(req, verify, users).None? ==>
              o == Respond(GuardReply(401, None, "message", "User not found"))
    ensures ClaimedUser(req, verify, users).Some? && !HasRole(ClaimedUser(req, verify, users), "vendor") ==>
              o == Respond(GuardReply(403, None, "message", "Unauthorized: User is not a vendor"))
  {
    if !Truthy(req.token) then
      Respond(GuardReply(401, None, "message", "Unauthorized: No token provided"))
    else if req.token.value !in verify then
      Respond(GuardReply(500, None, "message", "Server error"))
    else
      var user := LookupUser(users, verify[req.token.value].userId);
      if user.None? then
        Respond(GuardReply(401, None, "message", "User not found"))
      else if user.value.role != "vendor" then
        Respond(GuardReply(403, None, "message", "Unauthorized: User is not a vendor"))
      else
        Next(req.(user := user))
  }

  /** With unique ids, a token naming an admin's id lets exactly that admin through `isAdmin`. */
  lemma IsAdminAdmits(req: Request, verify: Verifier, users: seq<User>, i: nat)
    requires UniqueKeys(users, UserId) && i < |users| && users[i].role == "admin"
    requires Decodes(req, verify) && verify[req.token.value].userId == Some(users[i].id)
    ensures IsAdmin(req, verify, users) == Next(req.(user := Some(users[i])))
  {
    FindAt(users, UserId, i);
  }

  /** No request passes both `isAdmin` and `isVendor`, and a failing token is answered by
      `isVendor` but left hanging by `isAdmin`. */
  lemma AdminVendorDisjoint(req: Request, verify: Verifier, users: seq<User>)
    ensures !(IsAdmin(req, verify, users).Next? && IsVendor(req, verify, users).Next?)
    ensures Truthy(req.token) && !Decodes(req, verify) ==>
              IsAdmin(req, verify, users).NoResponse? && IsVendor(req, verify, users).Respond?
  {
  }

  /** `userAuth` (backend): no token gives 401, a token that fails to verify gives 401, otherwise
      `req.userId` is set from the payload and `next` is called. It never looks up the user, so
      it cannot depend on a role. */
  function UserAuth(req: Request, verify: Verifier): (o: Outcome)
    ensures o.Next? <==> Decodes(req, verify)
    ensures o.Next? ==> o.req == req.(userId := verify[req.token.value].userId)
    ensures !Truthy(req.token) ==> o == Respond(GuardReply(401, Some(false), "message", "Unauthorized: No token"))
    ensures Truthy(req.token) && !Decodes(req, verify) ==>
              o == Respond(GuardReply(401, Some(false), "message", "Invalid or expired token"))
  {
    if !Truthy(req.token) then
      Respond(GuardReply(401, Some(false), "message", "Unauthorized: No token"))
    else if req.token.value !in verify then
      Respond(GuardReply(401, Some(false), "message", "Invalid or expired token"))
    else
      Next(req.(userId := verify[req.token.value].userId))
  }

  /** `adminAuth` (backend) as written: its module never imports `userModel`, so the lookup throws
      a `ReferenceError` and every request ends in the catch branch with a 500. */
  function AdminAuth(req: Request): (o: Outcome)
    ensures o.Respond? && o.reply.status == 500 && o.reply.success == Some(false)
  {
    Respond(GuardReply(500, Some(false), "message", "userModel is not defined"))
  }

  /** `adminAuth` with `userModel` in scope: 404 for an unknown `req.userId`, 403 for a non-admin,
      otherwise `next` with the request untouched. */
  function AdminAuthImported(req: Request, users: seq<User>): (o: Outcome)
    ensures o.Next? <==> HasRole(LookupUser(users, req.userId), "admin")
    ensures o.Next? ==> o.req == req
    ensures LookupUser(users, req.userId).None? ==>
              o == Respond(GuardReply(404, Some(false), "message", "User not found"))
    ensures LookupUser(users, req.userId).Some? && !HasRole(LookupUser(users, req.userId), "admin") ==>
              o == Respond(GuardReply(403, Some(false), "message", "Access denied. Admin privileges required."))
  {
    var user := LookupUser(users, req.userId);
    if user.None? then
      Respond(GuardReply(404, Some(false), "message", "User not found"))
    else if user.value.role != "admin" then
      Respond(GuardReply(403, Some(false), "message", "Access denied. Admin privileges required."))
    else
      Next(req)
  }

  /** An administrator whose id is in `req.userId` is admitted by the importing version and
      refused with a 500 by the version as written. */
  lemma AdminAuthRefusesAdmins(req: Request, users: seq<User>, i: nat)
    requires UniqueKeys(users, UserId) && i < |users| && users[i].role == "admin"
    requires req.userId == Some(users[i].id)
    ensures AdminAuthImported(req, users) == Next(req)
    ensures AdminAuth(req).Respond? && AdminAuth(req).reply.status == 500
  {
    FindAt(users, UserId, i);
  }

  /** The backend admin routes run `userAuth` and then `adminAuth`. */
  function AdminGate(req: Request, verify: Verifier, users: seq<User>): (o: Outcome)
    ensures o.Next? <==> Decodes(req, verify) && HasRole(LookupUser(users, verify[req.token.value].userId), "admin")
    ensures o.Next? ==> o.req == req.(userId := verify[req.token.value].userId)
  {
    match UserAuth(req, verify)
    case Next(r) => AdminAuthImported(r, users)
    case other => other
  }

  /** The same chain with `adminAuth` as written lets no request through. */
  function AdminGateAsWritten(req: Request, verify: Verifier): (o: Outcome)
    ensures !o.Next?
    ensures Decodes(req, verify) ==> o.Respond? && o.reply.status == 500
  {
    match UserAuth(req, verify)
    case Next(r) => AdminAuth(r)
    case other => other
  }
}
