/** The contact-submission document (server/models/contact.js) and the validation and
    defaults Mongoose applies when one is created. */
module ContactModel {
  import opened Common

  datatype ContactStatus = Unread | Read

  function ContactStatusName(s: ContactStatus): string
  {
    match s
    case Unread => "unread"
    case Read => "read"
  }

  /** The schema's enum check: only "unread" and "read" are accepted. */
  function ParseContactStatus(s: string): (r: Option<ContactStatus>)
    ensures r.Some? <==> s == "unread" || s == "read"
    ensures r.Some? ==> ContactStatusName(r.value) == s
  {
    if s == "unread" then Some(Unread)
    else if s == "read" then Some(Read)
    else None
  }

  lemma ContactStatusRoundTrip(s: ContactStatus)
    ensures ParseContactStatus(ContactStatusName(s)) == Some(s)
  {
  }

  datatype Contact = Contact(
    id: Id,
    fullName: string,
    email: string,
    contactNo: Option<string>,
    mobileNo: Option<string>,
    message: string,
    status: ContactStatus,
    createdAt: int)

  function ContactId(c: Contact): Id
  {
    c.id
  }

  /** The fields a submission supplies; anything may be missing. */
  datatype ContactInput = ContactInput(
    fullName: Option<string>,
    email: Option<string>,
    contactNo: Option<string>,
    mobileNo: Option<string>,
    message: Option<string>)

  /** The paths whose `required` check fails. A required string fails when it is missing or
      empty. */
  function MissingContactPaths(c: ContactInput): set<string>
  {
    (if Truthy(c.fullName) then {} else {"fullName"})
    + (if Truthy(c.email) then {} else {"email"})
    + (if Truthy(c.message) then {} else {"message"})
  }

  /** `new ContactModel({...}).save()`: validation, then the defaults `status: "unread"` and
      `createdAt: Date.now` (the clock is the parameter `now`). */
  function NewContact(c: ContactInput, id: Id, now: int): (r: Result<Contact, set<string>>)
    ensures r.Ok? <==> Truthy(c.fullName) && Truthy(c.email) && Truthy(c.message)
    ensures r.Err? ==> r.error <= {"fullName", "email", "message"}
    ensures r.Err? ==> ("fullName" in r.error <==> !Truthy(c.fullName))
    ensures r.Err? ==> ("email" in r.error <==> !Truthy(c.email))
    ensures r.Err? ==> ("message" in r.error <==> !Truthy(c.message))
    ensures r.Ok? ==> r.value == Contact(id, c.fullName.value, c.email.value, c.contactNo, c.mobileNo,
                                         c.message.value, Unread, now)
  {
    var missing := MissingContactPaths(c);
    if missing != {} then Err(missing)
    else Ok(Contact(id, c.fullName.value, c.email.value, c.contactNo, c.mobileNo, c.message.value, Unread, now))
  }

  /** The fields of a stored contact, as a submission would carry them. */
  function ContactFields(c: Contact): ContactInput
  {
    ContactInput(Some(c.fullName), Some(c.email), c.contactNo, c.mobileNo, Some(c.message))
  }

  /** Submitting the fields of an unread contact with non-empty required fields creates that
      very contact again. */
  lemma NewContactRoundTrip(c: Contact)
    requires c.fullName != "" && c.email != "" && c.message != "" && c.status == Unread
    ensures NewContact(ContactFields(c), c.id, c.createdAt) == Ok(c)
  {
  }

  /** What the admin "mark as read" update writes. */
  function MarkRead(c: Contact): (r: Contact)
    ensures r.status == Read
    ensures r.(status := c.status) == c
  {
    c.(status := Read)
  }
}
