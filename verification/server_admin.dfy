/** The administrator handlers of the server (server/controllers/Admin.js) over the user, service
    and contact collections. Handlers that write are methods on the `Database`; the read-only
    queries are functions of the collection they read. */
module ServerAdmin {
  import opened Common
  import opened Seqs
  import opened Tables
  import opened Users
  import opened ServiceModel
  import opened ContactModel
  import opened Http
  import opened Store

  /** `deleteUser`. The handler reads `.role` of the `findById` result before checking it, so an
      unknown id throws and is answered 500; its own 404 branch can never be reached. An admin
      target is refused with 409. Otherwise exactly that user is removed and returned. */
  method DeleteUser(db: Database, id: Id) returns (r: Reply<User>)
    requires db.Valid()
    modifies db
    ensures db.Valid()
    ensures db.services == old(db.services) && db.contacts == old(db.contacts)
    ensures r.status != 200 ==> db.users == old(db.users)
    ensures !HasKey(old(db.users), UserId, id) ==> r == Message(500, None, "Internal server error")
    ensures HasKey(old(db.users), UserId, id) && Find(old(db.users), UserId, id).value.role == "admin" ==>
              r == Message(409, None, "You cannot delete yourself")
    ensures HasKey(old(db.users), UserId, id) && Find(old(db.users), UserId, id).value.role != "admin" ==>
              exists i :: 0 <= i < |old(db.users)| && old(db.users)[i].id == id
                && r == Reply(200, None, Some("User deleted successfully"), Some(old(db.users)[i]))
                && db.users == old(db.users)[..i] + old(db.users)[i + 1..]
    ensures r.status != 404
  {
    var checkAdmin := Find(db.users, UserId, id);
    if checkAdmin.None? {
      return Message(500, None, "Internal server error");
    }
    if checkAdmin.value.role == "admin" {
      return Message(409, None, "You cannot delete yourself");
    }
    ghost var i := FoundAt(db.users, UserId, id);
    RemoveAt(db.users, UserId, i);
    RemoveKeepsUnique(db.users, UserId, id);
    var user := checkAdmin.value;
    db.users := Remove(db.users, UserId, id);
    r := Reply(200, None, Some("User deleted successfully"), Some(user));
  }

  /** `GetVendors`: exactly the users whose role is "vendor", in collection order. */
  function GetVendors(users: seq<User>): (r: Reply<seq<User>>)
    ensures r.status == 200 && r.success == Some(true) && r.data.Some?
    ensures forall u :: u in r.data.value <==> u in users && IsVendor(u)
    ensures SubsequenceOf(r.data.value, users)
  {
    Reply(200, Some(true), None, Some(Filter(users, IsVendor)))
  }

  /** `deleteVendor`: 404 for an unknown id and 400 for a user who is not a vendor, both deleting
      nothing; otherwise exactly that vendor is removed and returned. */
  method DeleteVendor(db: Database, id: Id) returns (r: Reply<User>)
    requires db.Valid()
    modifies db
    ensures db.Valid()
    ensures db.services == old(db.services) && db.contacts == old(db.contacts)
    ensures r.status != 200 ==> db.users == old(db.users)
    ensures !HasKey(old(db.users), UserId, id) ==> r == Message(404, Some(false), "Vendor not found")
    ensures HasKey(old(db.users), UserId, id) && !IsVendor(Find(old(db.users), UserId, id).value) ==>
              r == Message(400, Some(false), "User is not a vendor")
    ensures HasKey(old(db.users), UserId, id) && IsVendor(Find(old(db.users), UserId, id).value) ==>
              exists i :: 0 <= i < |old(db.users)| && old(db.users)[i].id == id
                && r == Reply(200, Some(true), Some("Vendor deleted successfully"), Some(old(db.users)[i]))
                && db.users == old(db.users)[..i] + old(db.users)[i + 1..]
  {
    var vendor := Find(db.users, UserId, id);
    if vendor.None? {
      return Message(404, Some(false), "Vendor not found");
    }
    if vendor.value.role != "vendor" {
      return Message(400, Some(false), "User is not a vendor");
    }
    ghost var i := FoundAt(db.users, UserId, id);
    RemoveAt(db.users, UserId, i);
    RemoveKeepsUnique(db.users, UserId, id);
    db.users := Remove(db.users, UserId, id);
    r := Reply(200, Some(true), Some("Vendor deleted successfully"), vendor);
  }

  const InvalidStatusMessage := "Invalid status value. Only 'pending' and 'approved' and 'rejected' are allowed."

  /** `updateServiceStatus`: a status outside pending/approved/rejected is refused with 400 before
      any lookup; an unknown service gives 404; otherwise that service's status, and nothing
      else, is overwritten and the saved service returned. */
  method UpdateServiceStatus(db: Database, id: Id, status: Option<string>) returns (r: Reply<Service>)
    requires db.Valid()
    modifies db
    ensures db.Valid()
    ensures db.users == old(db.users) && db.contacts == old(db.contacts)
    ensures r.status != 200 ==> db.services == old(db.services)
    ensures status.None? || ParseServiceStatus(status.value).None? ==> r == Message(400, Some(false), InvalidStatusMessage)
    ensures status.Some? && ParseServiceStatus(status.value).Some? && !HasKey(old(db.services), ServiceId, id) ==>
              r == Message(404, Some(false), "Service not found")
    ensures status.Some? && ParseServiceStatus(status.value).Some? && HasKey(old(db.services), ServiceId, id) ==>
              exists i :: 0 <= i < |old(db.services)| && old(db.services)[i].id == id
                && var saved := old(db.services)[i].(status := ParseServiceStatus(status.value));
                && r == Reply(200, Some(true), Some("Service status updated successfully"), Some(saved))
                && db.services == old(db.services)[i := saved]
  {
    if status.None? || ParseServiceStatus(status.value).None? {
      return Message(400, Some(false), InvalidStatusMessage);
    }
    var service := Find(db.services, ServiceId, id);
    if service.None? {
      return Message(404, Some(false), "Service not found");
    }
    var st := ParseServiceStatus(status.value);
    var save := (s: Service) => s.(status := st);
    ghost var i := FoundAt(db.services, ServiceId, id);
    UpdateAt(db.services, ServiceId, i, save);
    UpdateKeepsUnique(db.services, ServiceId, id, save);
    db.services := Update(db.services, ServiceId, id, save);
    r := Reply(200, Some(true), Some("Service status updated successfully"), Some(save(service.value)));
  }

  /** `deleteService`: 404 (with no `success` flag) for an unknown id, otherwise exactly that
      service is removed. */
  method DeleteService(db: Database, id: Id) returns (r: Reply<()>)
    requires db.Valid()
    modifies db
    ensures db.Valid()
    ensures db.users == old(db.users) && db.contacts == old(db.contacts)
    ensures !HasKey(old(db.services), ServiceId, id) ==>
              r == Message(404, None, "Service not found") && db.services == old(db.services)
    ensures HasKey(old(db.services), ServiceId, id) ==>
              r == Message(200, None, "Service deleted successfully")
              && (exists i :: 0 <= i < |old(db.services)| && old(db.services)[i].id == id
                    && db.services == old(db.services)[..i] + old(db.services)[i + 1..])
  {
    if !HasKey(db.services, ServiceId, id) {
      assert Remove(db.services, ServiceId, id) == db.services;
      return Message(404, None, "Service not found");
    }
    ghost var i := FoundAt(db.services, ServiceId, id);
    RemoveAt(db.services, ServiceId, i);
    RemoveKeepsUnique(db.services, ServiceId, id);
    db.services := Remove(db.services, ServiceId, id);
    r := Message(200, None, "Service deleted successfully");
  }

  /** `submitContactForm`: the new contact is validated and given the defaults; a validation
      failure, or an id already taken (a duplicate-key error), is answered 500 and stores
      nothing. Otherwise the contact is appended and returned with 201. The id and the clock are
      parameters. */
  method SubmitContactForm(db: Database, c: ContactInput, id: Id, now: int) returns (r: Reply<Contact>)
    requires db.Valid()
    modifies db
    ensures db.Valid()
    ensures db.users == old(db.users) && db.services == old(db.services)
    ensures NewContact(c, id, now).Err? || HasKey(old(db.contacts), ContactId, id) ==>
              r == Message(500, Some(false), "Failed to submit contact form") && db.contacts == old(db.contacts)
    ensures NewContact(c, id, now).Ok? && !HasKey(old(db.contacts), ContactId, id) ==>
              r == Reply(201, Some(true), Some("Thank you for contacting us!"), Some(NewContact(c, id, now).value))
              && db.contacts == old(db.contacts) + [NewContact(c, id, now).value]
  {
    var created := NewContact(c, id, now);
    if created.Err? || HasKey(db.contacts, ContactId, id) {
      return Message(500, Some(false), "Failed to submit contact form");
    }
    AppendKeepsUnique(db.contacts, ContactId, created.value);
    db.contacts := db.contacts + [created.value];
    r := Reply(201, Some(true), Some("Thank you for contacting us!"), Some(created.value));
  }

  /** Newest first: `createdAt` never increases along the list. */
  predicate NewestFirstOrder(s: seq<Contact>)
  {
    forall i, j :: 0 <= i < j < |s| ==> s[i].createdAt >= s[j].createdAt
  }

  /** Places `c` in a list sorted newest first. */
  function InsertByDate(c: Contact, s: seq<Contact>): (r: seq<Contact>)
    requires NewestFirstOrder(s)
    ensures NewestFirstOrder(r)
    ensures multiset(r) == multiset(s) + multiset{c}
    decreases |s|
  {
    if s == [] || c.createdAt >= s[0].createdAt then
      PrependNewest(c, s);
      [c] + s
    else
      var rest := InsertByDate(c, s[1..]);
      assert s == [s[0]] + s[1..];
      assert forall x :: x in rest ==> x.createdAt <= s[0].createdAt by {
        forall x | x in rest ensures x.createdAt <= s[0].createdAt {
          assert x in multiset(rest);
          if x != c {
            assert x in multiset(s[1..]);
            var j :| 0 <= j < |s[1..]| && s[1..][j] == x;
            assert x == s[j + 1];
          }
        }
      }
      PrependNewest(s[0], rest);
      [s[0]] + rest
  }

  /** A list sorted newest first stays sorted when an element no older than all of it is put in
      front. */
  lemma PrependNewest(x: Contact, s: seq<Contact>)
    requires NewestFirstOrder(s)
    requires forall y :: y in s ==> y.createdAt <= x.createdAt
    ensures NewestFirstOrder([x] + s)
  {
    var r := [x] + s;
    forall i, j | 0 <= i < j < |r| ensures r[i].createdAt >= r[j].createdAt {
      assert r[j] == s[j - 1];
      if i > 0 {
        assert r[i] == s[i - 1];
      }
    }
  }

  /** `.sort({ createdAt: -1 })`: the same submissions, newest first. */
  function NewestFirst(s: seq<Contact>): (r: seq<Contact>)
    ensures NewestFirstOrder(r)
    ensures multiset(r) == multiset(s)
    decreases |s|
  {
    if s == [] then []
    else
      assert s == [s[0]] + s[1..];
      InsertByDate(s[0], NewestFirst(s[1..]))
  }

  /** `getContactSubmissions`: every submission, newest first. */
  function GetContactSubmissions(contacts: seq<Contact>): (r: Reply<seq<Contact>>)
    ensures r.status == 200 && r.success == Some(true) && r.data.Some?
    ensures NewestFirstOrder(r.data.value) && multiset(r.data.value) == multiset(contacts)
  {
    Reply(200, Some(true), None, Some(NewestFirst(contacts)))
  }

  /** `updateSubmissionStatus`: 404 for an unknown id; otherwise that submission's status becomes
      "read", nothing else changes, and the updated submission is returned. */
  method UpdateSubmissionStatus(db: Database, id: Id) returns (r: Reply<Contact>)
    requires db.Valid()
    modifies db
    ensures db.Valid()
    ensures db.users == old(db.users) && db.services == old(db.services)
    ensures !HasKey(old(db.contacts), ContactId, id) ==>
              r == Message(404, Some(false), "Submission not found") && db.contacts == old(db.contacts)
    ensures HasKey(old(db.contacts), ContactId, id) ==>
              exists i :: 0 <= i < |old(db.contacts)| && old(db.contacts)[i].id == id
                && r == Reply(200, Some(true), Some("Submission marked as read"), Some(MarkRead(old(db.contacts)[i])))
                && db.contacts == old(db.contacts)[i := MarkRead(old(db.contacts)[i])]
  {
    var found := Find(db.contacts, ContactId, id);
    if found.None? {
      assert Update(db.contacts, ContactId, id, MarkRead) == db.contacts;
      return Message(404, Some(false), "Submission not found");
    }
    ghost var i := FoundAt(db.contacts, ContactId, id);
    UpdateAt(db.contacts, ContactId, i, MarkRead);
    UpdateKeepsUnique(db.contacts, ContactId, id, MarkRead);
    db.contacts := Update(db.contacts, ContactId, id, MarkRead);
    r := Reply(200, Some(true), Some("Submission marked as read"), Some(MarkRead(found.value)));
  }

  /** Marking a submission as read a second time changes nothing further. */
  lemma MarkReadIdempotent(contacts: seq<Contact>, id: Id)
    ensures Update(Update(contacts, ContactId, id, MarkRead), ContactId, id, MarkRead)
         == Update(contacts, ContactId, id, MarkRead)
  {
    UpdateIdempotent(contacts, ContactId, id, MarkRead);
  }

  /** `deleteContactSubmission`: 404 for an unknown id, otherwise exactly that submission is
      removed. */
  method DeleteContactSubmission(db: Database, id: Id) returns (r: Reply<()>)
    requires db.Valid()
    modifies db
    ensures db.Valid()
    ensures db.users == old(db.users) && db.services == old(db.services)
    ensures !HasKey(old(db.contacts), ContactId, id) ==>
              r == Message(404, Some(false), "Submission not found") && db.contacts == old(db.contacts)
    ensures HasKey(old(db.contacts), ContactId, id) ==>
              r == Message(200, Some(true), "Submission deleted successfully")
              && (exists i :: 0 <= i < |old(db.contacts)| && old(db.contacts)[i].id == id
                    && db.contacts == old(db.contacts)[..i] + old(db.contacts)[i + 1..])
  {
    if !HasKey(db.contacts, ContactId, id) {
      return Message(404, Some(false), "Submission not found");
    }
    ghost var i := FoundAt(db.contacts, ContactId, id);
    RemoveAt(db.contacts, ContactId, i);
    RemoveKeepsUnique(db.contacts, ContactId, id);
    db.contacts := Remove(db.contacts, ContactId, id);
    r := Message(200, Some(true), "Submission deleted successfully");
  }
}
