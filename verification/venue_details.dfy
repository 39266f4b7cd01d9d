/** The venue page (client/src/pages/VenueDetails.jsx): the venue is looked up from the route id;
    a booking attempt by a visitor who is not logged in is parked in session storage and picked
    up again when the page for the same venue is mounted after the login. */
module VenueDetails {
  import opened Common
  import opened Text
  import opened VenueSearch

  /** The object saved under "pendingBooking"; the dates and the guest count are the strings the
      inputs hold. */
  datatype PendingBooking = PendingBooking(venueId: int, startDate: string, endDate: string, guestCount: string)

  const PendingKey := "pendingBooking"

  /** `sessionStorage`, holding each value already parsed back from its JSON text. */
  class SessionStorage {
    var items: map<string, PendingBooking>

    constructor ()
      ensures items == map[]
    {
      items := map[];
    }
  }

  /** A `navigate(path, { state: { redirectTo } })` call. */
  datatype Navigation = Navigation(path: string, redirectTo: string)

  /** The first venue whose id is `n`. */
  function FirstWithId(venues: seq<Venue>, n: int): (r: Option<Venue>)
    ensures r.Some? <==> exists i :: 0 <= i < |venues| && venues[i].id == n
    ensures r.Some? ==> r.value in venues && r.value.id == n
    decreases |venues|
  {
    if venues == [] then None
    else if venues[0].id == n then Some(venues[0])
    else
      var r := FirstWithId(venues[1..], n);
      assert (exists i :: 0 <= i < |venues| && venues[i].id == n)
         ==> (exists i :: 0 <= i < |venues[1..]| && venues[1..][i].id == n) by {
        if exists i :: 0 <= i < |venues| && venues[i].id == n {
          var i :| 0 <= i < |venues| && venues[i].id == n;
          assert venues[1..][i - 1] == venues[i];
        }
      }
      r
  }

  /** The venue `find` returns is the first one in the list with the id. */
  lemma {:induction false} FirstWithIdIsFirst(venues: seq<Venue>, n: int)
    requires FirstWithId(venues, n).Some?
    ensures exists i :: FirstAt(venues, n, i) && venues[i] == FirstWithId(venues, n).value
    decreases |venues|
  {
    if venues[0].id == n {
      assert FirstAt(venues, n, 0);
    } else {
      FirstWithIdIsFirst(venues[1..], n);
      var i :| FirstAt(venues[1..], n, i) && venues[1..][i] == FirstWithId(venues[1..], n).value;
      forall j | 0 <= j < i + 1
        ensures venues[j].id != n
      {
        if j > 0 {
          assert venues[j] == venues[1..][j - 1];
        }
      }
      assert FirstAt(venues, n, i + 1);
    }
  }

  /** Position `i` holds the first venue whose id is `n`. */
  predicate FirstAt(venues: seq<Venue>, n: int, i: int)
  {
    0 <= i < |venues| && venues[i].id == n && forall j :: 0 <= j < i ==> venues[j].id != n
  }

  /** `venueData.find(v => v.id === parseInt(id))`: a route id that does not parse (`NaN`)
      matches nothing. The page's venue list carries the same ids, names, locations, ratings and
      prices as the listing page's. */
  function FindVenue(venues: seq<Venue>, id: string): (r: Option<Venue>)
    ensures ParseInt(id).None? ==> r.None?
    ensures r.Some? ==> r.value in venues && Some(r.value.id) == ParseInt(id)
    ensures ParseInt(id).Some? && (exists v :: v in venues && v.id == ParseInt(id).value) ==> r.Some?
  {
    if ParseInt(id).None? then None else FirstWithId(venues, ParseInt(id).value)
  }

  /** The route ids "1", "2" and "3" name the three venues. */
  lemma FindVenueByRoute(i: nat)
    requires i < |Venues|
    ensures FindVenue(Venues, Decimal(i + 1)) == Some(Venues[i])
  {
    ParseIntDecimal(i + 1);
  }

  /** The saved booking is for the venue of route `id`, as `bookingData.venueId === parseInt(id)`
      decides. */
  predicate RestoresFor(items: map<string, PendingBooking>, id: string)
  {
    PendingKey in items && ParseInt(id) == Some(items[PendingKey].venueId)
  }

  class VenueDetailsPage {
    const id: string
    const venueData: seq<Venue>
    var venue: Option<Venue>
    var startDate: string
    var endDate: string
    var guestCount: string
    var isLoggedIn: bool
    /** The last `alert` shown, and the last navigation requested. */
    var alert: Option<string>
    var navigation: Option<Navigation>

    /** The first render: nothing found yet, empty inputs, not logged in. */
    constructor (id: string)
      ensures this.id == id && venueData == Venues && venue.None?
      ensures startDate == "" && endDate == "" && guestCount == ""
      ensures !isLoggedIn && alert.None? && navigation.None?
    {
      this.id := id;
      venueData := Venues;
      venue := None;
      startDate := "";
      endDate := "";
      guestCount := "";
      isLoggedIn := false;
      alert := None;
      navigation := None;
    }

    /** The page shows its loading view while no venue is set. */
    predicate Loading()
      reads this
    {
      venue.None?
    }

    /** The mount effect: look the venue up; restore and remove a pending booking saved for this
      venue, leaving one for another venue alone; mark the visitor logged in when a `userToken`
      is stored. */
    method Mount(session: SessionStorage, userToken: Option<string>)
      modifies this, session
      ensures venue == FindVenue(venueData, id)
      ensures isLoggedIn == (old(isLoggedIn) || Truthy(userToken))
      ensures alert == old(alert) && navigation == old(navigation)
      ensures RestoresFor(old(session.items), id) ==>
                && startDate == old(session.items)[PendingKey].startDate
                && endDate == old(session.items)[PendingKey].endDate
                && guestCount == old(session.items)[PendingKey].guestCount
                && session.items == old(session.items) - {PendingKey}
      ensures !RestoresFor(old(session.items), id) ==>
                && startDate == old(startDate) && endDate == old(endDate) && guestCount == old(guestCount)
                && session.items == old(session.items)
    {
      venue := FindVenue(venueData, id);
      var pending := session.items;
      if RestoresFor(pending, id) {
        var bookingData := pending[PendingKey];
        startDate := bookingData.startDate;
        endDate := bookingData.endDate;
        guestCount := bookingData.guestCount;
        session.items := pending - {PendingKey};
      }
      if Truthy(userToken) {
        isLoggedIn := true;
      }
    }

    /** The three inputs' change handlers. */
    method Fill(startDate: string, endDate: string, guestCount: string)
      modifies this
      ensures this.startDate == startDate && this.endDate == endDate && this.guestCount == guestCount
      ensures venue == old(venue) && isLoggedIn == old(isLoggedIn)
      ensures alert == old(alert) && navigation == old(navigation)
    {
      this.startDate := startDate;
      this.endDate := endDate;
      this.guestCount := guestCount;
    }

    /** `handleBookNow`, reachable once the venue is shown. An empty input alerts and stores
      nothing; a visitor who is not logged in has the booking saved under "pendingBooking" and
      is sent to the login page with this page as the place to return to; a logged-in visitor
      gets the success alert. */
    method BookNow(session: SessionStorage)
      requires venue.Some?
      modifies this, session
      ensures venue == old(venue) && isLoggedIn == old(isLoggedIn)
      ensures startDate == old(startDate) && endDate == old(endDate) && guestCount == old(guestCount)
      ensures startDate == "" || endDate == "" || guestCount == "" ==>
                && alert == Some("Please fill in all required fields")
                && navigation == old(navigation) && session.items == old(session.items)
      ensures startDate != "" && endDate != "" && guestCount != "" && !isLoggedIn ==>
                && session.items == old(session.items)[PendingKey := PendingBooking(venue.value.id, startDate, endDate, guestCount)]
                && navigation == Some(Navigation("/login", "/venue/" + id))
                && alert == old(alert)
      ensures startDate != "" && endDate != "" && guestCount != "" && isLoggedIn ==>
                && alert == Some("Booking successful! Thank you for choosing " + venue.value.name)
                && navigation == old(navigation) && session.items == old(session.items)
    {
      if startDate == "" || endDate == "" || guestCount == "" {
        alert := Some("Please fill in all required fields");
        return;
      }
      if !isLoggedIn {
        session.items := session.items[PendingKey := PendingBooking(venue.value.id, startDate, endDate, guestCount)];
        navigation := Some(Navigation("/login", "/venue/" + id));
      } else {
        alert := Some("Booking successful! Thank you for choosing " + venue.value.name);
      }
    }
  }

  /** The first visit: a visitor who is not logged in opens the page of a known venue, fills in
      the form and presses "Book now"; the booking is saved and the visitor is sent to log in. */
  method LeaveForLogin(id: string, startDate: string, endDate: string, guestCount: string,
                       session: SessionStorage)
      returns (first: VenueDetailsPage)
    requires FindVenue(Venues, id).Some?
    requires startDate != "" && endDate != "" && guestCount != ""
    modifies session
    ensures first.navigation == Some(Navigation("/login", "/venue/" + id))
    ensures session.items == old(session.items)[PendingKey :=
              PendingBooking(FindVenue(Venues, id).value.id, startDate, endDate, guestCount)]
  {
    first := new VenueDetailsPage(id);
    first.Mount(session, None);
    ghost var items := session.items;
    assert first.venue == FindVenue(Venues, id) && !first.isLoggedIn;
    first.Fill(startDate, endDate, guestCount);
    first.BookNow(session);
    assert session.items == items[PendingKey := PendingBooking(first.venue.value.id, startDate, endDate, guestCount)];
  }

  /** The round trip: after the first visit, coming back to the same route finds the form filled
      in as it was left, with nothing left pending. */
  method BookAfterLogin(id: string, startDate: string, endDate: string, guestCount: string,
                        session: SessionStorage, userToken: Option<string>)
      returns (first: VenueDetailsPage, second: VenueDetailsPage)
    requires FindVenue(Venues, id).Some?
    requires startDate != "" && endDate != "" && guestCount != ""
    modifies session
    ensures first.navigation == Some(Navigation("/login", "/venue/" + id))
    ensures second.venue == FindVenue(Venues, id)
    ensures second.startDate == startDate && second.endDate == endDate && second.guestCount == guestCount
    ensures second.isLoggedIn == Truthy(userToken)
    ensures session.items == old(session.items) - {PendingKey}
  {
    first := LeaveForLogin(id, startDate, endDate, guestCount, session);
    second := new VenueDetailsPage(id);
    second.Mount(session, userToken);
  }
}
