/** The booking document (server/models/booking.js): its closed status enums, the shape of a
    selected-service entry, and the validation and defaults Mongoose applies on creation.
    No code in this model changes a booking's status after creation: the schema only fixes
    the set of values and the default. */
module BookingModel {
  import opened Common

  datatype BookingStatus = Pending | Confirmed | Completed | Cancelled

  function BookingStatusName(s: BookingStatus): string
  {
    match s
    case Pending => "pending"
    case Confirmed => "confirmed"
    case Completed => "completed"
    case Cancelled => "cancelled"
  }

  /** The schema's enum check for `status`. */
  function ParseBookingStatus(s: string): (r: Option<BookingStatus>)
    ensures r.Some? <==> s in ["pending", "confirmed", "completed", "cancelled"]
    ensures r.Some? ==> BookingStatusName(r.value) == s
  {
    if s == "pending" then Some(Pending)
    else if s == "confirmed" then Some(Confirmed)
    else if s == "completed" then Some(Completed)
    else if s == "cancelled" then Some(Cancelled)
    else None
  }

  lemma BookingStatusRoundTrip(s: BookingStatus)
    ensures ParseBookingStatus(BookingStatusName(s)) == Some(s)
  {
  }

  /** `paymentStatus`; its "pending" value is called `PaymentPending` here. */
  datatype PaymentStatus = PaymentPending | Paid | Refunded

  function PaymentStatusName(s: PaymentStatus): string
  {
    match s
    case PaymentPending => "pending"
    case Paid => "paid"
    case Refunded => "refunded"
  }

  /** The schema's enum check for `paymentStatus`. */
  function ParsePaymentStatus(s: string): (r: Option<PaymentStatus>)
    ensures r.Some? <==> s in ["pending", "paid", "refunded"]
    ensures r.Some? ==> PaymentStatusName(r.value) == s
  {
    if s == "pending" then Some(PaymentPending)
    else if s == "paid" then Some(Paid)
    else if s == "refunded" then Some(Refunded)
    else None
  }

  lemma PaymentStatusRoundTrip(s: PaymentStatus)
    ensures ParsePaymentStatus(PaymentStatusName(s)) == Some(s)
  {
  }

  /** One entry of `selectedServices`: `_id`, `title` and `basePrice` are required. */
  datatype SelectedService = SelectedService(
    id: Id,
    title: string,
    basePrice: int,
    description: Option<string>,
    isMainService: Option<bool>,
    extraServiceId: Option<string>)

  datatype Booking = Booking(
    service: Id,
    user: Id,
    vendor: Id,
    bookingDate: int,
    status: BookingStatus,
    notes: Option<string>,
    paymentStatus: PaymentStatus,
    name: string,
    email: string,
    phone: string,
    location: string,
    selectedServices: seq<SelectedService>,
    totalPrice: int,
    eventType: Option<string>,
    guestCount: Option<int>,
    specialRequests: Option<string>)

  datatype SelectedServiceInput = SelectedServiceInput(
    id: Option<Id>,
    title: Option<string>,
    basePrice: Option<int>,
    description: Option<string>,
    isMainService: Option<bool>,
    extraServiceId: Option<string>)

  datatype BookingInput = BookingInput(
    service: Option<Id>,
    user: Option<Id>,
    vendor: Option<Id>,
    bookingDate: Option<int>,
    status: Option<string>,
    notes: Option<string>,
    paymentStatus: Option<string>,
    name: Option<string>,
    email: Option<string>,
    phone: Option<string>,
    location: Option<string>,
    selectedServices: seq<SelectedServiceInput>,
    totalPrice: Option<int>,
    eventType: Option<string>,
    guestCount: Option<int>,
    specialRequests: Option<string>)

  /** The failing paths of one entry, relative to the entry. */
  function EntryErrors(e: SelectedServiceInput): set<string>
  {
    (if e.id.Some? then {} else {"_id"})
    + (if Truthy(e.title) then {} else {"title"})
    + (if e.basePrice.Some? then {} else {"basePrice"})
  }

  /** A validation error path: a top-level field, or a field of the entry at an index of
      `selectedServices` (Mongoose writes it `selectedServices.<index>.<field>`). */
  datatype Path = Field(name: string) | EntryField(index: nat, name: string)

  function FieldErrors(b: BookingInput): set<Path>
  {
    (if b.service.Some? then {} else {Field("service")})
    + (if b.user.Some? then {} else {Field("user")})
    + (if b.vendor.Some? then {} else {Field("vendor")})
    + (if b.bookingDate.Some? then {} else {Field("bookingDate")})
    + (if b.status.None? || ParseBookingStatus(b.status.value).Some? then {} else {Field("status")})
    + (if b.paymentStatus.None? || ParsePaymentStatus(b.paymentStatus.value).Some? then {} else {Field("paymentStatus")})
    + (if Truthy(b.name) then {} else {Field("name")})
    + (if Truthy(b.email) then {} else {Field("email")})
    + (if Truthy(b.phone) then {} else {Field("phone")})
    + (if Truthy(b.location) then {} else {Field("location")})
    + (if b.totalPrice.Some? then {} else {Field("totalPrice")})
  }

  /** Every failing path. */
  function BookingErrors(b: BookingInput): set<Path>
  {
    FieldErrors(b)
    + (set i: nat, p | i < |b.selectedServices| && p in EntryErrors(b.selectedServices[i]) :: EntryField(i, p))
  }

  predicate EntryValid(e: SelectedServiceInput)
  {
    e.id.Some? && Truthy(e.title) && e.basePrice.Some?
  }

  /** The stored entry: the given `_id`, title and price, the optional fields as given. */
  function Entry(e: SelectedServiceInput): (s: SelectedService)
    requires EntryValid(e)
    ensures s.id == e.id.value && s.title == e.title.value && s.basePrice == e.basePrice.value
    ensures s.description == e.description && s.isMainService == e.isMainService
    ensures s.extraServiceId == e.extraServiceId
  {
    SelectedService(e.id.value, e.title.value, e.basePrice.value, e.description, e.isMainService, e.extraServiceId)
  }

  /** Creating a booking: every required field present (strings non-empty), every entry well
      formed and each given status inside its enum; `status` and `paymentStatus` default to
      "pending". */
  function NewBooking(b: BookingInput): (r: Result<Booking, set<Path>>)
    ensures r.Ok? <==> (
      && b.service.Some? && b.user.Some? && b.vendor.Some? && b.bookingDate.Some?
      && Truthy(b.name) && Truthy(b.email) && Truthy(b.phone) && Truthy(b.location)
      && b.totalPrice.Some?
      && (forall i :: 0 <= i < |b.selectedServices| ==> EntryValid(b.selectedServices[i]))
      && (b.status.None? || b.status.value in ["pending", "confirmed", "completed", "cancelled"])
      && (b.paymentStatus.None? || b.paymentStatus.value in ["pending", "paid", "refunded"]))
    ensures r.Err? ==> r.error != {}
    ensures r.Ok? && b.status.None? ==> r.value.status == Pending
    ensures r.Ok? && b.status.Some? ==> BookingStatusName(r.value.status) == b.status.value
    ensures r.Ok? && b.paymentStatus.None? ==> r.value.paymentStatus == PaymentPending
    ensures r.Ok? && b.paymentStatus.Some? ==> PaymentStatusName(r.value.paymentStatus) == b.paymentStatus.value
    ensures r.Ok? ==>
      && r.value.service == b.service.value && r.value.user == b.user.value
      && r.value.vendor == b.vendor.value && r.value.bookingDate == b.bookingDate.value
      && r.value.name == b.name.value && r.value.email == b.email.value
      && r.value.phone == b.phone.value && r.value.location == b.location.value
      && r.value.totalPrice == b.totalPrice.value && r.value.notes == b.notes
      && r.value.eventType == b.eventType && r.value.guestCount == b.guestCount
      && r.value.specialRequests == b.specialRequests
    ensures r.Ok? ==> |r.value.selectedServices| == |b.selectedServices|
    ensures r.Ok? ==> forall i :: 0 <= i < |b.selectedServices| ==>
      r.value.selectedServices[i] == Entry(b.selectedServices[i])
  {
    var errors := BookingErrors(b);
    if errors != {} then
      Err(errors)
    else
      assert forall i :: 0 <= i < |b.selectedServices| ==> EntryValid(b.selectedServices[i]) by {
        forall i: nat | i < |b.selectedServices| ensures EntryValid(b.selectedServices[i]) {
          var e := b.selectedServices[i];
          assert forall p | p in EntryErrors(e) :: EntryField(i, p) in errors;
        }
      }
      Ok(Booking(
        b.service.value, b.user.value, b.vendor.value, b.bookingDate.value,
        if b.status.None? then Pending else ParseBookingStatus(b.status.value).value,
        b.notes,
        if b.paymentStatus.None? then PaymentPending else ParsePaymentStatus(b.paymentStatus.value).value,
        b.name.value, b.email.value, b.phone.value, b.location.value,
        seq(|b.selectedServices|, i requires 0 <= i < |b.selectedServices| => Entry(b.selectedServices[i])),
        b.totalPrice.value, b.eventType, b.guestCount, b.specialRequests))
  }

  /** A booking missing any one required field is rejected and the error names that field. */
  lemma MissingNameRejected(b: BookingInput)
    requires !Truthy(b.name)
    ensures NewBooking(b).Err? && Field("name") in NewBooking(b).error
  {
  }

  /** An entry without `_id` is rejected under its own path. */
  lemma EntryWithoutIdRejected(b: BookingInput, i: nat)
    requires i < |b.selectedServices| && b.selectedServices[i].id.None?
    ensures NewBooking(b).Err?
    ensures EntryField(i, "_id") in NewBooking(b).error
  {
    assert "_id" in EntryErrors(b.selectedServices[i]);
  }

  function EntryFields(e: SelectedService): SelectedServiceInput
  {
    SelectedServiceInput(Some(e.id), Some(e.title), Some(e.basePrice), e.description, e.isMainService, e.extraServiceId)
  }

  /** The fields of a stored booking, as a request would carry them. */
  function BookingFields(k: Booking): BookingInput
  {
    BookingInput(
      Some(k.service), Some(k.user), Some(k.vendor), Some(k.bookingDate),
      Some(BookingStatusName(k.status)), k.notes, Some(PaymentStatusName(k.paymentStatus)),
      Some(k.name), Some(k.email), Some(k.phone), Some(k.location),
      seq(|k.selectedServices|, i requires 0 <= i < |k.selectedServices| => EntryFields(k.selectedServices[i])),
      Some(k.totalPrice), k.eventType, k.guestCount, k.specialRequests)
  }

  /** Creating a booking from the fields of a stored one with non-empty strings gives it back:
      validation accepts it and no default overrides a given value. */
  lemma NewBookingRoundTrip(k: Booking)
    requires k.name != "" && k.email != "" && k.phone != "" && k.location != ""
    requires forall i :: 0 <= i < |k.selectedServices| ==> k.selectedServices[i].title != ""
    ensures NewBooking(BookingFields(k)) == Ok(k)
  {
    var b := BookingFields(k);
    BookingStatusRoundTrip(k.status);
    PaymentStatusRoundTrip(k.paymentStatus);
    assert NewBooking(b).Ok?;
    assert NewBooking(b).value.selectedServices == k.selectedServices;
  }
}
