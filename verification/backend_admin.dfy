/** The administrator handlers of the backend (backend/controllers/adminController.js). Unlike
    the server's, every reply carries a `success` flag, and the listings hide the password and
    the two one-time codes. */
module BackendAdmin {
  import opened Common
  import opened Seqs
  import opened Tables
  import opened Users
  import opened Http
  import opened Store

  /** `Getuser`: every user, in collection order, with `password`, `verifyOtp` and `resetOtp`
      removed. */
  function GetUsers(users: seq<User>): (r: Reply<seq<PublicUser>>)
    ensures r.status == 200 && r.success == Some(true) && r.data.Some?
    ensures |r.data.value| == |users|
    ensures forall i :: 0 <= i < |users| ==> r.data.value[i] == WithoutSecrets(users[i])
  {
    Reply(200, Some(true), None, Some(MapSeq(users, WithoutSecrets)))
  }

  /** `GetVendors`: the users whose role is "vendor", in collection order, with the same three
      fields removed. */
  function GetVendors(users: seq<User>): (r: Reply<seq<PublicUser>>)
    ensures r.status == 200 && r.success == Some(true) && r.data.Some?
    ensures forall p :: p in r.data.value ==> p.role == "vendor"
    ensures forall p :: p in r.data.value <==> exists u :: u in users && IsVendor(u) && p == WithoutSecrets(u)
    ensures r.data.value == MapSeq(Filter(users, IsVendor), WithoutSecrets)
  {
    var vendors := Filter(users, IsVendor);
    var listed := MapSeq(vendors, WithoutSecrets);
    assert forall p :: p in listed <==> exists u :: u in vendors && p == WithoutSecrets(u) by {
      forall p | p in listed ensures exists u :: u in vendors && p == WithoutSecrets(u) {
        var i :| 0 <= i < |listed| && listed[i] == p;
        assert vendors[i] in vendors;
      }
      forall p | exists u :: u in vendors && p == WithoutSecrets(u) ensures p in listed {
        var u :| u in vendors && p == WithoutSecrets(u);
        var i :| 0 <= i < |vendors| && vendors[i] == u;
        assert listed[i] == p;
      }
    }
    Reply(200, Some(true), None, Some(listed))
  }

  /** `deleteUser`: as on the server, `.role` is read from the lookup result unchecked, so an
      unknown id is answered 500 and the 404 branch is never reached; an admin target is refused
      with 409; otherwise exactly that user is removed and returned, secrets included. */
  method DeleteUser(db: Database, id: Id) returns (r: Reply<User>)
    requires db.Valid()
    modifies db
    ensures db.Valid()
    ensures db.services == old(db.services) && db.contacts == old(db.contacts)
    ensures r.status != 200 ==> db.users == old(db.users)
    ensures !HasKey(old(db.users), UserId, id) ==> r == Message(500, Some(false), "Internal server error")
    ensures HasKey(old(db.users), UserId, id) && Find(old(db.users), UserId, id).value.role == "admin" ==>
              r == Message(409, Some(false), "You cannot delete yourself")
    ensures HasKey(old(db.users), UserId, id) && Find(old(db.users), UserId, id).value.role != "admin" ==>
              exists i :: 0 <= i < |old(db.users)| && old(db.users)[i].id == id
                && r == Reply(200, Some(true), Some("User deleted successfully"), Some(old(db.users)[i]))
                && db.users == old(db.users)[..i] + old(db.users)[i + 1..]
    ensures r.status != 404
  {
    var checkAdmin := Find(db.users, UserId, id);
    if checkAdmin.None? {
      return Message(500, Some(false), "Internal server error");
    }
    if checkAdmin.value.role == "admin" {
      return Message(409, Some(false), "You cannot delete yourself");
    }
    ghost var i := FoundAt(db.users, UserId, id);
    RemoveAt(db.users, UserId, i);
    RemoveKeepsUnique(db.users, UserId, id);
    var user := checkAdmin.value;
    db.users := Remove(db.users, UserId, id);
    r := Reply(200, Some(true), Some("User deleted successfully"), Some(user));
  }

  /** `deleteVendor`: 404 for an unknown id and 400 for a user who is not a vendor, both deleting
      nothing; otherwise exactly that vendor is removed and returned. */
  method DeleteVendor(db: Database, id: Id) returns (r: Reply<User>)
    requires db.Valid()
    modifies db
    ensures db.Valid()
    ensures db.services == old(db.services) && db.contacts == old(db.contacts)
    ensures r.status != 200 ==> db.users == old(db.users)
    ensures !HasKey(old(db.users), UserId, id) ==> r == Message(404, Some(false), "Vendor not found")
    ensures HasKey(old(db.users), UserId, id) && !IsVendor(Find(old(db.users), UserId, id).value) ==>
              r == Message(400, Some(false), "User is not a vendor")
    ensures HasKey(old(db.users), UserId, id) && IsVendor(Find(old(db.users), UserId, id).value) ==>
              exists i :: 0 <= i < |old(db.users)| && old(db.users)[i].id == id
                && r == Reply(200, Some(true), Some("Vendor deleted successfully"), Some(old(db.users)[i]))
                && db.users == old(db.users)[..i] + old(db.users)[i + 1..]
  {
    var vendor := Find(db.users, UserId, id);
    if vendor.None? {
      return Message(404, Some(false), "Vendor not found");
    }
    if vendor.value.role != "vendor" {
      return Message(400, Some(false), "User is not a vendor");
    }
    ghost var i := FoundAt(db.users, UserId, id);
    RemoveAt(db.users, UserId, i);
    RemoveKeepsUnique(db.users, UserId, id);
    db.users := Remove(db.users, UserId, id);
    r := Reply(200, Some(true), Some("Vendor deleted successfully"), vendor);
  }
}
