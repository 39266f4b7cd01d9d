/** The service listing document (server/models/service.js) and the casting, validation and
    defaults Mongoose applies when one is created. */
module ServiceModel {
  import opened Common
  import Text

  /** The moderation states the admin controller accepts. The schema itself declares no
      `status` path, so a newly created service has none (`None`). */
  datatype ServiceStatus = Pending | Approved | Rejected

  function ServiceStatusName(s: ServiceStatus): string
  {
    match s
    case Pending => "pending"
    case Approved => "approved"
    case Rejected => "rejected"
  }

  /** `["pending", "approved", "rejected"].includes(status)`, with the matching state. */
  function ParseServiceStatus(s: string): (r: Option<ServiceStatus>)
    ensures r.Some? <==> s in ["pending", "approved", "rejected"]
    ensures r.Some? ==> ServiceStatusName(r.value) == s
  {
    if s == "pending" then Some(Pending)
    else if s == "approved" then Some(Approved)
    else if s == "rejected" then Some(Rejected)
    else None
  }

  lemma ServiceStatusRoundTrip(s: ServiceStatus)
    ensures ParseServiceStatus(ServiceStatusName(s)) == Some(s)
  {
  }

  const DefaultImage: string := "default-service.jpg"

  /** `duration` is in minutes. */
  datatype Service = Service(
    id: Id,
    title: string,
    description: string,
    price: int,
    duration: int,
    category: string,
    vendor: Id,
    isAvailable: bool,
    image: string,
    status: Option<ServiceStatus>)

  function ServiceId(s: Service): Id
  {
    s.id
  }

  datatype ServiceInput = ServiceInput(
    title: Option<string>,
    description: Option<string>,
    price: Option<int>,
    duration: Option<int>,
    category: Option<string>,
    vendor: Option<Id>,
    isAvailable: Option<bool>,
    image: Option<string>)

  /** The title after the `trim: true` setter, which runs before validation. */
  function CastTitle(title: Option<string>): Option<string>
  {
    if title.Some? then Some(Text.Trim(title.value)) else None
  }

  /** The paths whose `required` check fails: strings must be present and non-empty (after
      trimming, for the title), numbers and the vendor reference present. */
  function MissingServicePaths(s: ServiceInput): set<string>
  {
    (if Truthy(CastTitle(s.title)) then {} else {"title"})
    + (if Truthy(s.description) then {} else {"description"})
    + (if s.price.Some? then {} else {"price"})
    + (if s.duration.Some? then {} else {"duration"})
    + (if Truthy(s.category) then {} else {"category"})
    + (if s.vendor.Some? then {} else {"vendor"})
  }

  /** Creating a service document: trim the title, check the required fields, then fill in
      `isAvailable: true` and `image: "default-service.jpg"` where they are not given. */
  function NewService(s: ServiceInput, id: Id): (r: Result<Service, set<string>>)
    ensures r.Ok? <==> (
      && s.title.Some? && Text.Trim(s.title.value) != "" && Truthy(s.description)
      && s.price.Some? && s.duration.Some? && Truthy(s.category) && s.vendor.Some?)
    ensures r.Err? ==> r.error != {}
    ensures r.Ok? ==> r.value.title == Text.Trim(s.title.value) && r.value.id == id && r.value.status.None?
    ensures r.Ok? ==>
      && r.value.description == s.description.value && r.value.price == s.price.value
      && r.value.duration == s.duration.value && r.value.category == s.category.value
      && r.value.vendor == s.vendor.value
    ensures r.Ok? ==> r.value.isAvailable == (if s.isAvailable.Some? then s.isAvailable.value else true)
    ensures r.Ok? ==> r.value.image == (if s.image.Some? then s.image.value else DefaultImage)
  {
    var missing := MissingServicePaths(s);
    if missing != {} then Err(missing)
    else Ok(Service(id, Text.Trim(s.title.value), s.description.value, s.price.value, s.duration.value,
                    s.category.value, s.vendor.value,
                    if s.isAvailable.Some? then s.isAvailable.value else true,
                    if s.image.Some? then s.image.value else DefaultImage,
                    None))
  }

  /** A title made only of whitespace trims to "" and fails the `required` check. */
  lemma BlankTitleRejected(s: ServiceInput, id: Id)
    requires s.title.Some? && forall k :: 0 <= k < |s.title.value| ==> Text.IsWhitespace(s.title.value[k])
    ensures NewService(s, id).Err? && "title" in NewService(s, id).error
  {
    Text.TrimBlank(s.title.value);
  }

  /** The fields of a stored service, as a creation request would carry them. */
  function ServiceFields(s: Service): ServiceInput
  {
    ServiceInput(Some(s.title), Some(s.description), Some(s.price), Some(s.duration), Some(s.category),
                 Some(s.vendor), Some(s.isAvailable), Some(s.image))
  }

  /** A service as created: trimmed non-empty title, non-empty description and category, no status. */
  predicate WellFormed(s: Service)
  {
    s.title != "" && Text.Trim(s.title) == s.title && s.description != "" && s.category != "" && s.status.None?
  }

  /** Re-creating a well-formed service from its own fields gives it back unchanged. */
  lemma NewServiceRoundTrip(s: Service)
    requires WellFormed(s)
    ensures NewService(ServiceFields(s), s.id) == Ok(s)
  {
  }

  /** Every service that creation accepts is well-formed. */
  lemma NewServiceWellFormed(s: ServiceInput, id: Id)
    requires NewService(s, id).Ok?
    ensures WellFormed(NewService(s, id).value)
  {
    Text.TrimIdempotent(s.title.value);
  }
}
