/** The database behind the Express servers: one collection per model, each in natural order. */
module Store {
  import opened Tables
  import opened Users
  import opened ServiceModel
  import opened ContactModel

  class Database {
    var users: seq<User>
    var services: seq<Service>
    var contacts: seq<Contact>

    /** Document ids are unique within each collection. */
    predicate Valid()
      reads this
    {
      && UniqueKeys(users, UserId)
      && UniqueKeys(services, ServiceId)
      && UniqueKeys(contacts, ContactId)
    }

    constructor (users: seq<User>, services: seq<Service>, contacts: seq<Contact>)
      requires UniqueKeys(users, UserId) && UniqueKeys(services, ServiceId) && UniqueKeys(contacts, ContactId)
      ensures Valid()
      ensures this.users == users && this.services == services && this.contacts == contacts
    {
      this.users := users;
      this.services := services;
      this.contacts := contacts;
    }
  }
}
