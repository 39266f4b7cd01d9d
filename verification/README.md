# Venue: a Dafny model of the booking site's core

Venue is a wedding and event booking site. Its Express server and backend answer administrator
and vendor requests over three MongoDB collections (users, services, contact submissions), behind
token guards. Its React pages let a visitor filter venues, book a venue (the booking survives a
detour through the login page), select a service and its add-ons, and browse a gallery.

This project models that core in Dafny and proves what each part promises:

- `Store.Database` holds the three collections. Each is a sequence in natural (insertion) order
  with unique ids (`Valid`). The generic `Tables` module models `findById`,
  `findByIdAndDelete` and `findByIdAndUpdate` over it.
- `ServerAdmin` (server/controllers/Admin.js), `BackendAdmin`
  (backend/controllers/adminController.js) and `VendorController`
  (server/controllers/vendor.js) model the handlers:
  - handlers that write are methods that modify the database;
  - each states its reply for every branch and its exact new state;
  - read-only queries are functions.
- `UserController` (backend/controllers/userController.js) models the user lookups.
- `Guards` models the middleware: `isAdmin` and `isVendor` (server/middleware/verifyToken.js),
  `userAuth` and `adminAuth` (backend/middleware). Each guard is a function from the request to
  "call next with this request", "reply" or "no response".
- `BookingModel`, `ContactModel` and `ServiceModel` model the Mongoose schemas
  (server/models): closed enums, required fields, defaults and the title trim. Each creation
  function is proved to round-trip with the stored record.
- `ServiceDetails` (frontend/src/pages/ServiceDetails.jsx) models:
  - the booking form's field updates;
  - the selection toggle;
  - the price total;
  - the checks made before posting.
- `VenueSearch` (client/src/pages/Venue.jsx) models the venue list and its five-criteria
  filter, including JavaScript's `includes` and `parseInt` and an ASCII-only `toLowerCase` (module `Text`).
- `VenueDetails` (client/src/pages/VenueDetails.jsx) models the venue page as a class:
  - a `SessionStorage` object;
  - the mount effect;
  - `handleBookNow`;
  - the save-and-restore round trip across the login redirect.
- `Gallery` (frontend/src/components/Gallery.jsx) models the category filter.

How JavaScript and the environment are represented:

- An HTTP reply is `Http.Reply`: status, optional `success` flag, optional message and optional
  payload.
- `res.json` without `res.status` is a 200.
- A property read on `null` throws. The enclosing `catch` then answers.
- JWT verification is a parameter: a `map` from the tokens that verify to their payloads.
- Clocks and generated ids are parameters.

## Model

| member | source | states |
|---|---|---|
| Tables.Find | server/controllers/Admin.js:19 | `findById` finds a record iff some record has the id; the record found has that id and is in the collection |
| Tables.FindAt | server/controllers/Admin.js:52 | with unique ids, looking up the id of the record at position i returns exactly that record |
| Tables.FoundAt | server/controllers/Admin.js:92 | with unique ids, a present id sits at exactly one position, and the lookup returns the record there |
| Tables.Remove | server/controllers/Admin.js:25 | `findByIdAndDelete` leaves no record with the id, adds nothing, never grows the collection, and leaves it unchanged for an unknown id |
| Tables.RemoveAt | server/controllers/Admin.js:66 | with unique ids, deleting the id of position i removes exactly that position and keeps the others in order |
| Tables.RemoveKeepsUnique | server/controllers/Admin.js:227 | deleting keeps ids unique |
| Tables.Update | server/controllers/Admin.js:196-200 | `findByIdAndUpdate` keeps the length, rewrites the records with the id and leaves every other record as it was |
| Tables.UpdateAt | server/controllers/vendor.js:33-37 | with unique ids, updating the id of position i changes that position only |
| Tables.UpdateKeepsUnique | server/controllers/Admin.js:99-100 | an update that does not change ids keeps ids unique |
| Tables.UpdateIdempotent | server/controllers/Admin.js:196-200 | applying an idempotent, id-preserving update twice is the same as applying it once |
| Tables.AppendKeepsUnique | server/controllers/Admin.js:159 | saving a record with an id not yet used keeps ids unique |
| Seqs.Filter | frontend/src/components/Gallery.jsx:76 | `Array.prototype.filter`: keeps exactly the elements satisfying the predicate, in their original order, never more than the input |
| Seqs.SubsequenceOfSelf | frontend/src/components/Gallery.jsx:74-75 | a list is an order-preserving sub-list of itself |
| Seqs.FilterKeepsAll | client/src/pages/Venue.jsx:51 | when every element passes, filtering returns the whole list |
| Seqs.FilterDropsAll | frontend/src/components/Gallery.jsx:76 | when no element passes, filtering returns the empty list |
| Seqs.FilterCongruent | client/src/pages/Venue.jsx:51 | two predicates that agree on every element filter to the same list |
| Seqs.FilterAppend | frontend/src/pages/ServiceDetails.jsx:41 | filtering a concatenation filters each part |
| Seqs.MapSeq | backend/controllers/adminController.js:5-7 | a projection keeps the length and transforms each position |
| Text.TrimStart | server/models/service.js:8 | drops exactly the leading whitespace: the result is a suffix, everything cut is whitespace, and it does not start with whitespace |
| Text.TrimEnd | server/models/service.js:8 | drops exactly the trailing whitespace, symmetrically |
| Text.Trim | server/models/service.js:8 | `trim`: the result is a slice whose cut-off parts are whitespace and whose ends are not |
| Text.TrimIdempotent | server/models/service.js:8 | trimming twice is trimming once |
| Text.TrimBlank | server/models/service.js:5-9 | a title made only of whitespace trims to the empty string |
| Text.LowerChar | client/src/pages/Venue.jsx:52 | ASCII only: each letter A-Z maps to the small letter 32 code points on; every other character, non-ASCII capitals included, is kept |
| Text.ToLower | client/src/pages/Venue.jsx:52 | ASCII-only `toLowerCase`: the length is kept and each character is lowered by itself |
| Text.ToLowerIdempotent | client/src/pages/Venue.jsx:52 | lowering twice is lowering once, and a lowered string holds no ASCII capital |
| Text.Contains | client/src/pages/Venue.jsx:52 | `includes` holds iff the needle occurs at some position of the text |
| Text.ParseInt | client/src/pages/Venue.jsx:55-56 | `parseInt` is `NaN` iff no digit follows the whitespace, sign and `0x` prefix; otherwise the signed value of the longest digit run |
| Text.Decimal | client/src/pages/Venue.jsx:55-56 | a number's decimal numeral is non-empty, all digits, without a leading zero |
| Text.DecimalValue | client/src/pages/Venue.jsx:55-56 | the digits of a numeral denote its number |
| Text.ParseIntDecimal | client/src/pages/Venue.jsx:55-56 | `parseInt` of a number's decimal numeral gives the number back |
| Users.WithoutSecrets | backend/controllers/adminController.js:5-7 | `.select("-password -verifyOtp -resetOtp")` keeps id, name, email, role, verification flag and creation time |
| Users.WithoutSecretsDropsOnlySecrets | backend/controllers/adminController.js:5-7 | the listed user plus the three hidden fields is the whole user: exactly those three are dropped |
| Users.WithoutSecretsHidesSecrets | backend/controllers/adminController.js:47-49 | the listing does not depend on the hidden fields |
| ContactModel.ParseContactStatus | server/models/contact.js:18-22 | the contact status enum accepts exactly "unread" and "read" |
| ContactModel.ContactStatusRoundTrip | server/models/contact.js:18-22 | every status's name parses back to that status |
| ContactModel.NewContact | server/models/contact.js:4-26 | accepted iff fullName, email and message are present and non-empty; each error names exactly the missing paths; contactNo and mobileNo are optional; status defaults to unread and createdAt to the creation time |
| ContactModel.NewContactRoundTrip | server/models/contact.js:4-26 | submitting an unread contact's own fields recreates that contact |
| ContactModel.MarkRead | server/controllers/Admin.js:196-200 | the status becomes read and every other field is kept |
| ServiceModel.ParseServiceStatus | server/controllers/Admin.js:84 | exactly "pending", "approved" and "rejected" are accepted |
| ServiceModel.ServiceStatusRoundTrip | server/controllers/Admin.js:84 | every status's name parses back to that status |
| ServiceModel.NewService | server/models/service.js:3-41 | accepted iff title (after trimming), description, price, duration, category and vendor are given; the title is stored trimmed; isAvailable defaults to true and image to "default-service.jpg"; no status is set; description, price, duration, category and vendor are stored as given |
| ServiceModel.BlankTitleRejected | server/models/service.js:5-9 | a whitespace-only title is rejected with a "title" error |
| ServiceModel.NewServiceRoundTrip | server/models/service.js:3-41 | recreating a well-formed service from its own fields gives it back |
| ServiceModel.NewServiceWellFormed | server/models/service.js:3-41 | every service creation accepts is well-formed (trimmed title, no status) |
| BookingModel.ParseBookingStatus | server/models/booking.js:25-29 | the booking status enum accepts exactly pending, confirmed, completed and cancelled |
| BookingModel.BookingStatusRoundTrip | server/models/booking.js:25-29 | every booking status's name parses back to it |
| BookingModel.ParsePaymentStatus | server/models/booking.js:33-37 | the payment status enum accepts exactly pending, paid and refunded |
| BookingModel.PaymentStatusRoundTrip | server/models/booking.js:33-37 | every payment status's name parses back to it |
| BookingModel.NewBooking | server/models/booking.js:6-77 | accepted iff service, user, vendor, bookingDate, name, email, phone, location and totalPrice are given, every selected entry has _id, title and basePrice, and given statuses are in their enums; both statuses default to pending; every other field is stored as given, each entry keeping its _id, title, price and optional fields; a rejection names at least one path |
| BookingModel.MissingNameRejected | server/models/booking.js:39-42 | a booking without a name is rejected with the "name" path |
| BookingModel.EntryWithoutIdRejected | server/models/booking.js:55-60 | a selected entry without `_id` is rejected with that entry's "_id" path |
| BookingModel.NewBookingRoundTrip | server/models/booking.js:6-77 | recreating a stored booking from its own fields gives it back |
| Guards.IsAdmin | server/middleware/verifyToken.js:3-27 | next iff the verified token names an existing admin, and then `req.user` is that user; 401 without a token; no response when the token fails; 401 and 403 under the key "messsage" for an unknown user and a non-admin |
| Guards.IsVendor | server/middleware/verifyToken.js:29-54 | the same chain with role "vendor"; a failing token is answered 500 |
| Guards.IsAdminAdmits | server/middleware/verifyToken.js:12-23 | with unique ids, a token naming an admin's id lets exactly that admin through |
| Guards.AdminVendorDisjoint | server/middleware/verifyToken.js:24-26 | no request passes both guards; a failing token is left hanging by isAdmin but answered by isVendor |
| Guards.UserAuth | backend/middleware/userAuth.js:3-25 | next iff the token is present and verifies, and then only `req.userId` is set, to the payload's userId; 401 "Unauthorized: No token" and 401 "Invalid or expired token" otherwise |
| Guards.AdminAuth | backend/middleware/adminAuth.js:1-26 | as written, every request ends in the 500 catch branch |
| Guards.AdminAuthImported | backend/middleware/adminAuth.js:4-21 | next, with the request untouched, iff `req.userId` names an admin; 404 for an unknown user, 403 for a non-admin |
| Guards.AdminAuthRefusesAdmins | backend/middleware/adminAuth.js:1-26 | an admin is admitted by the importing version and refused with 500 as written |
| Guards.AdminGate | backend/routes/adminRoutes.js:15-18 | `userAuth` then `adminAuth` admit a request iff its token verifies and names an admin |
| Guards.AdminGateAsWritten | backend/routes/adminRoutes.js:15-18 | with `adminAuth` as written, no request reaches an admin handler |
| ServerAdmin.DeleteUser | server/controllers/Admin.js:16-35 | unknown id: 500, as the null `.role` read throws, so the 404 branch is unreachable; admin target: 409; otherwise exactly that user is removed and returned; refusals change nothing |
| ServerAdmin.GetVendors | server/controllers/Admin.js:38-46 | exactly the users whose role is "vendor", in collection order |
| ServerAdmin.DeleteVendor | server/controllers/Admin.js:49-76 | 404 for an unknown id, 400 for a non-vendor, both deleting nothing; otherwise exactly that vendor is removed |
| ServerAdmin.UpdateServiceStatus | server/controllers/Admin.js:79-111 | a status outside the three is refused with 400 before any lookup; 404 for an unknown service; otherwise only that service's status changes |
| ServerAdmin.DeleteService | server/controllers/Admin.js:128-142 | 404 without a success flag for an unknown id; otherwise exactly that service is removed |
| ServerAdmin.SubmitContactForm | server/controllers/Admin.js:147-173 | a submission failing validation, or whose id is taken, is answered 500 and stores nothing; otherwise the created contact is appended and returned with 201 |
| ServerAdmin.InsertByDate | server/controllers/Admin.js:178 | inserting into a newest-first list keeps it newest-first and adds exactly the one element |
| ServerAdmin.PrependNewest | server/controllers/Admin.js:178 | putting an element no older than all others in front keeps a list newest-first |
| ServerAdmin.NewestFirst | server/controllers/Admin.js:178 | `.sort({ createdAt: -1 })` is newest-first and a permutation of its input |
| ServerAdmin.GetContactSubmissions | server/controllers/Admin.js:176-190 | every submission, newest first |
| ServerAdmin.UpdateSubmissionStatus | server/controllers/Admin.js:193-221 | 404 for an unknown id; otherwise only that submission's status becomes read, and it is returned |
| ServerAdmin.MarkReadIdempotent | server/controllers/Admin.js:196-200 | marking a submission read twice is the same as once |
| ServerAdmin.DeleteContactSubmission | server/controllers/Admin.js:224-247 | 404 for an unknown id; otherwise exactly that submission is removed |
| BackendAdmin.GetUsers | backend/controllers/adminController.js:3-13 | every user, position by position, with the three secret fields removed |
| BackendAdmin.GetVendors | backend/controllers/adminController.js:44-55 | exactly the vendors, in collection order, with the three secret fields removed |
| BackendAdmin.DeleteUser | backend/controllers/adminController.js:15-42 | as on the server, with success flags: 500 for an unknown id (404 unreachable), 409 for an admin, otherwise exactly that user removed |
| BackendAdmin.DeleteVendor | backend/controllers/adminController.js:57-88 | 404 for an unknown id, 400 for a non-vendor, otherwise exactly that vendor removed |
| VendorController.GetVendorDashboard | server/controllers/vendor.js:4-26 | the id, name, email, role and creation time of `req.user`; 500 without it |
| VendorController.DashboardHidesPrivateFields | server/controllers/vendor.js:14-20 | the dashboard does not depend on the password, one-time codes or verification flag |
| VendorController.UpdateVendorProfile | server/controllers/vendor.js:28-59 | only the name of the record with id `req.user._id` changes; 404 when it does not exist; the reply carries id, new name, email and role |
| UserController.GetUserData | backend/controllers/userController.js:4-34 | status 200 always; "User ID is required" without an id, "User not found" for an unknown one; success iff the user exists, with exactly name, email, role and verification flag |
| UserController.GetUserDataAt | backend/controllers/userController.js:12-27 | with unique ids, the data reported for a user's id are that user's |
| UserController.DebugUserRole | backend/controllers/userController.js:37-56 | an unknown id throws on the null `_id` read and gives 500; otherwise hasRole holds iff the role is non-empty |
| ServiceDetails.InitialForm | frontend/src/pages/ServiceDetails.jsx:15-24 | the form starts with nothing selected and the robot box unchecked |
| ServiceDetails.HandleChange | frontend/src/pages/ServiceDetails.jsx:27-33 | the named field becomes `checked` for a checkbox and `value` otherwise; every other field and the selection are kept |
| ServiceDetails.ToggleBy | frontend/src/pages/ServiceDetails.jsx:35-50 | with a matching entry, all entries with the item's key are filtered out; otherwise the item is appended |
| ServiceDetails.ToggleByDrops | frontend/src/pages/ServiceDetails.jsx:37-42 | dropping keeps exactly the entries with another key, in order |
| ServiceDetails.ToggleByTwice | frontend/src/pages/ServiceDetails.jsx:35-50 | toggling an unselected key twice restores the selection |
| ServiceDetails.ToggleSelection | frontend/src/pages/ServiceDetails.jsx:35-50 | as written: matching by `_id`, every entry with the item's `_id` is removed when one is present, otherwise the item is appended at the end |
| ServiceDetails.ToggleSelectionTwice | frontend/src/pages/ServiceDetails.jsx:35-50 | as written: toggling an item whose `_id` is absent twice restores the selection |
| ServiceDetails.AddOn | frontend/src/pages/ServiceDetails.jsx:511-516 | an add-on entry has no `_id` and the extraServiceId "extra-" + index |
| ServiceDetails.ToggleAddOnsCollide | frontend/src/pages/ServiceDetails.jsx:511-516 | as written: with one add-on selected, toggling a different add-on empties the selection |
| ServiceDetails.ToggleSelectionByKey | frontend/src/pages/ServiceDetails.jsx:483-516 | the toggle with entries matched as the checkboxes identify them: add-ons by extraServiceId, the main service by `_id` |
| ServiceDetails.AddOnsAccumulate | frontend/src/pages/ServiceDetails.jsx:504-516 | with that identity, add-ons at different indices accumulate, and a second toggle removes only the toggled one |
| ServiceDetails.HandleServiceToggle | frontend/src/pages/ServiceDetails.jsx:35-50 | only the selection changes; every plain field is kept |
| ServiceDetails.ToggleTwiceRestores | frontend/src/pages/ServiceDetails.jsx:35-50 | toggling an unselected item twice restores the whole form |
| ServiceDetails.Total | frontend/src/pages/ServiceDetails.jsx:613 | the total of an empty selection is 0, and is never negative for non-negative prices |
| ServiceDetails.TotalAppend | frontend/src/pages/ServiceDetails.jsx:70 | the total of a concatenation is the sum of the totals |
| ServiceDetails.ToggleTotal | frontend/src/pages/ServiceDetails.jsx:70 | selecting a new item adds exactly its price to the total |
| ServiceDetails.HandleSubmit | frontend/src/pages/ServiceDetails.jsx:53-82 | an unchecked robot box stops first, then an empty selection, both posting nothing; a post carries the form, the ids and the total of the selection |
| ServiceDetails.InitialFormRejected | frontend/src/pages/ServiceDetails.jsx:15-24 | the initial form cannot be posted |
| VenueSearch.ApplyFilters | client/src/pages/Venue.jsx:50-60 | a venue is kept iff all five criteria hold; the result keeps the original order |
| VenueSearch.NoCriteriaKeepsAll | client/src/pages/Venue.jsx:43-48 | with the initial criteria every venue is listed |
| VenueSearch.SearchIgnoresCase | client/src/pages/Venue.jsx:52 | two search terms with the same lower-case form select the same venues |
| VenueSearch.PriceBoundsInclusive | client/src/pages/Venue.jsx:55-56 | a bound equal to the venue's price keeps it, on both sides |
| VenueSearch.RatingAtLeast | client/src/pages/Venue.jsx:54 | the rating filter alone keeps a venue iff its rating is at least the chosen star |
| VenueSearch.UnparsableMinPriceKeepsNothing | client/src/pages/Venue.jsx:55 | a minimum price that `parseInt` reads as `NaN` keeps no venue |
| VenueSearch.Step | client/src/pages/Venue.jsx:62-154 | choosing a different location or star, or pressing search, shows the filter of the current criteria; choosing the location or star already chosen changes nothing, since the effect only runs when its dependencies change; typing alone leaves the list |
| VenueSearch.SameStarKeepsList | client/src/pages/Venue.jsx:62-65 | typing a term and clicking the star already chosen updates the term but leaves the list as it was |
| VenueSearch.StaleListAfterSameStar | client/src/pages/Venue.jsx:95-132 | after choosing 3 stars, typing "Moonlight Cafe & Banquet" and clicking 3 stars again, the list still holds a venue the current criteria reject |
| VenueSearch.FilterForgetsHistory | client/src/pages/Venue.jsx:51-59 | the list after a search depends only on the criteria, not on what was shown before |
| VenueSearch.InitialPageConsistent | client/src/pages/Venue.jsx:48 | the first list shown is the filter of the initial criteria |
| VenueDetails.FirstWithId | client/src/pages/VenueDetails.jsx:78 | `find` returns a venue with the id iff one exists |
| VenueDetails.FirstWithIdIsFirst | client/src/pages/VenueDetails.jsx:78 | the venue `find` returns is the first in the list with that id |
| VenueDetails.FindVenue | client/src/pages/VenueDetails.jsx:78 | a route id that `parseInt` reads as `NaN` finds nothing; a found venue is in the list and carries the parsed id; a listed id is always found |
| VenueDetails.FindVenueByRoute | client/src/pages/VenueDetails.jsx:19-79 | the routes "1", "2" and "3" find the three venues |
| VenueDetails.VenueDetailsPage.Mount | client/src/pages/VenueDetails.jsx:76-106 | the venue is looked up; a pending booking for this venue restores the three inputs and is removed; one for another venue is left alone; a stored token logs the visitor in |
| VenueDetails.VenueDetailsPage.Fill | client/src/pages/VenueDetails.jsx:261-283 | the three inputs take the typed values and nothing else changes |
| VenueDetails.VenueDetailsPage.BookNow | client/src/pages/VenueDetails.jsx:108-143 | an empty input alerts and stores nothing; a visitor who is not logged in has the booking saved under "pendingBooking" and is sent to /login with redirectTo /venue/:id; a logged-in visitor gets the success alert |
| VenueDetails.LeaveForLogin | client/src/pages/VenueDetails.jsx:119-129 | a visitor who is not logged in and books a known venue leaves exactly that booking pending and is sent to log in |
| VenueDetails.BookAfterLogin | client/src/pages/VenueDetails.jsx:82-92 | coming back to the same route restores the three inputs as they were typed and leaves nothing pending |
| Gallery.HandleCategoryChange | frontend/src/components/Gallery.jsx:70-72 | the active category becomes the one clicked |
| Gallery.FilteredItems | frontend/src/components/Gallery.jsx:74-76 | "all" shows every item as is; any other category shows exactly its items, in order |
| Gallery.BajaShowsNothing | frontend/src/components/Gallery.jsx:5-76 | the listed category "baja" has no items and shows nothing |
| Gallery.ItemsInListedCategories | frontend/src/components/Gallery.jsx:5-68 | every item belongs to a listed category other than "all" and shows up under it |

## Left out

- Collections are sequences in natural order rather than maps, because `find` results and the
  creation-time sort depend on that order. The database is assumed to hold each id once.
- Database failures are not modelled: connection errors, failed saves, and the `CastError`
  on a malformed id. Each of them would answer 500 through a handler's `catch`.
- Mongoose internals are not modelled:
  - ObjectId casting;
  - `populate`;
  - number casting, so prices that are not numbers (`NaN`) are not modelled;
  - the `timestamps` fields;
  - strict mode, so `updateServiceStatus` stores `status` on the service even though the
    schema declares no such path.
- JWT signature and expiry checking is a lookup in a map of valid tokens, and the secret is part
  of that map.
- The server's `Getuser` (all user documents, unfiltered) and `getAllServicesForAdmin` (all
  services with their vendor populated) are not part of this model.
- `debugFields` in `getUserData` and `allFields` in `debugUserRole` are left out. They list a
  document's internal keys.
- `UserController.GetUserData`: a thrown database error (500) is left out. Only the three
  branches of the handler are modelled.
- `VendorController.UpdateVendorProfile`: a request body without `name` is not modelled. The
  new name is always a string.
- `Guards.AdminAuth`: the module as shown also has no `export`; the model assumes it is exported
  as the routes import it.
- Booking status and payment status transitions are not modelled. No code changes them, so the
  model defines no transition table.
- `ServerAdmin.DeleteService` does not look at bookings: a service with active bookings is
  deleted like any other, as the handler does.
- Concerns outside the model:
  - all HTTP traffic from the pages (axios);
  - toasts, alerts as UI and console logging;
  - React rendering and the ordering of effects;
  - concurrent requests racing on one document.
- `JSON.stringify`/`JSON.parse` through session storage are treated as the identity: the
  saved fields are strings and a number.
- Descriptive text of the venues and gallery items is not modelled: descriptions, images,
  amenities, rules. Only the fields the logic reads are.
- `HandleServiceToggle` uses the corrected toggle (see Findings). The toggle as written is
  `ToggleSelection`.
- `Text.ToLower` and `Text.LowerChar` lower only the ASCII letters A-Z and always keep the
  length. JavaScript's `toLowerCase` folds all of Unicode: KELVIN SIGN (U+212A) lowers to "k",
  and "\u0130" lowers to two code units. Search terms outside ASCII may match differently.
- `ServiceDetails.Total`: prices are whole numbers (`int`). Fractional prices and
  floating-point rounding are not modelled, so `TotalAppend` is exact here but not in
  JavaScript. An add-on without a price (shown with `price?.` at ServiceDetails.jsx:265 and
  :523) would make the total at lines 70 and 613 `NaN`; every entry here has a price.

## Findings

| source | as written | input that shows it | evidently intended | confidence | as-written member | corrected member |
|---|---|---|---|---|---|---|
| frontend/src/pages/ServiceDetails.jsx:37-41,511-516 | the toggle compares entries by `_id`, and add-on entries are built without one, so every add-on matches every other | one add-on selected, then the checkbox of a different add-on is ticked: the selection becomes empty instead of holding both | add-ons are told apart by `extraServiceId`, as their checkboxes' `checked` state does, so they accumulate | high, not executed | ServiceDetails.ToggleAddOnsCollide | ServiceDetails.AddOnsAccumulate |
| backend/middleware/adminAuth.js:1-6 | `userModel` is used but never imported, so the lookup throws a `ReferenceError` and the catch answers 500 | as shown, the module has no default export, so importing it fails when the backend loads; under the export the routes assume, an administrator with a valid token calls any `/api/admin` route of the backend and the answer is 500 "userModel is not defined" | look the user up, answer 404 or 403, and call `next` for an administrator | high, not executed | Guards.AdminGateAsWritten | Guards.AdminGate |
