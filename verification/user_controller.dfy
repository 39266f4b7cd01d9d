/** The backend's user lookups (backend/controllers/userController.js). Neither writes. */
module UserController {
  import opened Common
  import opened Tables
  import opened Users
  import opened Http
  import Guards

  /** The `userData` object of a successful `getUserData`. */
  datatype UserData = UserData(name: string, email: string, role: string, isAccountVerified: bool)

  /** `getUserData` on the `req.userId` left by `userAuth`. Both refusals are sent with the
      default status 200 and `success: false`: a missing or empty id is refused before any lookup,
      an unknown id after it. */
  function GetUserData(users: seq<User>, userId: Option<Id>): (r: Reply<UserData>)
    ensures r.status == 200
    ensures !Truthy(userId) ==> r == Message(200, Some(false), "User ID is required")
    ensures Truthy(userId) && !HasKey(users, UserId, userId.value) ==> r == Message(200, Some(false), "User not found")
    ensures r.success == Some(true) <==> Truthy(userId) && HasKey(users, UserId, userId.value)
    ensures r.success == Some(true) ==>
              var u := Find(users, UserId, userId.value).value;
              r.data == Some(UserData(u.name, u.email, u.role, u.isAccountVerified))
  {
    if !Truthy(userId) then Message(200, Some(false), "User ID is required")
    else
      var user := Guards.LookupUser(users, userId);
      if user.None? then Message(200, Some(false), "User not found")
      else
        var u := user.value;
        Reply(200, Some(true), None, Some(UserData(u.name, u.email, u.role, u.isAccountVerified)))
  }

  /** With unique ids, `getUserData` for the id of the user at position `i` reports that user. */
  lemma GetUserDataAt(users: seq<User>, i: nat)
    requires UniqueKeys(users, UserId) && i < |users| && users[i].id != ""
    ensures GetUserData(users, Some(users[i].id)).data
         == Some(UserData(users[i].name, users[i].email, users[i].role, users[i].isAccountVerified))
  {
    FindAt(users, UserId, i);
  }

  /** The `debugInfo` object of `debugUserRole`. */
  datatype DebugInfo = DebugInfo(userId: Id, name: string, email: string, role: string, hasRole: bool)

  /** `debugUserRole` on the `userId` of the body: an unknown or missing id yields `null`, reading
      `_id` from it throws, and the reply is 500 with the error's message. Otherwise the user's
      fields and whether the role is truthy. */
  function DebugUserRole(users: seq<User>, userId: Option<Id>): (r: Reply<DebugInfo>)
    ensures Guards.LookupUser(users, userId).None? ==> r == Message(500, Some(false), NullPropertyMessage("_id"))
    ensures Guards.LookupUser(users, userId).Some? ==>
              var u := Guards.LookupUser(users, userId).value;
              && r.status == 200 && r.success == Some(true) && r.data.Some?
              && r.data.value.userId == u.id && r.data.value.role == u.role
              && (r.data.value.hasRole <==> u.role != "")
  {
    var user := Guards.LookupUser(users, userId);
    if user.None? then Message(500, Some(false), NullPropertyMessage("_id"))
    else
      var u := user.value;
      Reply(200, Some(true), None, Some(DebugInfo(u.id, u.name, u.email, u.role, u.role != "")))
  }
}
