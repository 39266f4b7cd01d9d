/** The vendor's own handlers (server/controllers/vendor.js). Both run behind `isVendor`, which
    puts the vendor's user document in `req.user`. */
module VendorController {
  import opened Common
  import opened Tables
  import opened Users
  import opened Http
  import opened Store

  /** The dashboard's view of the vendor. */
  datatype DashboardVendor = DashboardVendor(id: Id, name: string, email: string, role: string, createdAt: int)

  /** The profile returned after an update. */
  datatype ProfileVendor = ProfileVendor(id: Id, name: string, email: string, role: string)

  /** `getVendorDashboard`: the id, name, email, role and creation time of `req.user`, and nothing
      else; without `req.user` the property read throws and the reply is 500. */
  function GetVendorDashboard(reqUser: Option<User>): (r: Reply<DashboardVendor>)
    ensures reqUser.None? ==> r == Message(500, Some(false), "Internal server error")
    ensures reqUser.Some? ==> r.status == 200 && r.success == Some(true) && r.data.Some?
    ensures reqUser.Some? ==>
              var v := r.data.value;
              var u := reqUser.value;
              v.id == u.id && v.name == u.name && v.email == u.email && v.role == u.role && v.createdAt == u.createdAt
  {
    if reqUser.None? then Message(500, Some(false), "Internal server error")
    else
      var u := reqUser.value;
      Reply(200, Some(true), Some("Vendor dashboard data fetched successfully"),
            Some(DashboardVendor(u.id, u.name, u.email, u.role, u.createdAt)))
  }

  /** The dashboard view hides the password, the one-time codes and the verification flag: it
      is the same for two users who differ only there. */
  lemma DashboardHidesPrivateFields(u: User, password: string, verifyOtp: string, resetOtp: string, verified: bool)
    ensures GetVendorDashboard(Some(u.(password := password, verifyOtp := verifyOtp, resetOtp := resetOtp, isAccountVerified := verified)))
         == GetVendorDashboard(Some(u))
  {
  }

  /** `updateVendorProfile`: only the name of the user whose id is `req.user._id` changes, every
      other user and field stays; an id with no record gives 404; the reply carries the id, the
      new name, the email and the role. Without `req.user` the reply is 500. */
  method UpdateVendorProfile(db: Database, reqUser: Option<User>, name: string) returns (r: Reply<ProfileVendor>)
    requires db.Valid()
    modifies db
    ensures db.Valid()
    ensures db.services == old(db.services) && db.contacts == old(db.contacts)
    ensures r.status != 200 ==> db.users == old(db.users)
    ensures reqUser.None? ==> r == Message(500, Some(false), "Internal server error")
    ensures reqUser.Some? && !HasKey(old(db.users), UserId, reqUser.value.id) ==>
              r == Message(404, Some(false), "Vendor not found")
    ensures reqUser.Some? && HasKey(old(db.users), UserId, reqUser.value.id) ==>
              exists i :: 0 <= i < |old(db.users)| && old(db.users)[i].id == reqUser.value.id
                && var u := old(db.users)[i];
                && db.users == old(db.users)[i := u.(name := name)]
                && r == Reply(200, Some(true), Some("Vendor profile updated successfully"),
                              Some(ProfileVendor(u.id, name, u.email, u.role)))
  {
    if reqUser.None? {
      return Message(500, Some(false), "Internal server error");
    }
    var vendorId := reqUser.value.id;
    var found := Find(db.users, UserId, vendorId);
    if found.None? {
      assert Update(db.users, UserId, vendorId, (u: User) => u.(name := name)) == db.users;
      return Message(404, Some(false), "Vendor not found");
    }
    var rename := (u: User) => u.(name := name);
    ghost var i := FoundAt(db.users, UserId, vendorId);
    UpdateAt(db.users, UserId, i, rename);
    UpdateKeepsUnique(db.users, UserId, vendorId, rename);
    db.users := Update(db.users, UserId, vendorId, rename);
    var updated := rename(found.value);
    r := Reply(200, Some(true), Some("Vendor profile updated successfully"),
               Some(ProfileVendor(updated.id, updated.name, updated.email, updated.role)));
  }
}
