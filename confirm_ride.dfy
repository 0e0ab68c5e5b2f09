/** The booking page a passenger reaches from an offer: a seat counter bounded by the trip's
    seats, the total price, and the reservation request, sent with the session token. Replies
    of the backend are parameters here. */
module ConfirmRide {
  import opened Common
  import opened Session

  /** The trip handed over by the offers page. Numbers and references the backend may leave
      out are optional; `driverRef` is `trip.driver?._id`, `driverId` is `trip.driverId`. */
  datatype Trip = Trip(id: string, seats: Option<int>, price: Option<int>,
                       driverRef: Option<string>, driverId: Option<string>,
                       startPoint: string, endPoint: string, departureTime: string)

  /** `trip.seats ?? 1`: the trip's own number whenever it has one, even zero. */
  function MaxAvailable(trip: Trip): (m: int)
    ensures trip.seats.Some? ==> m == trip.seats.value
    ensures trip.seats.None? ==> m == 1
  {
    if trip.seats.Some? then trip.seats.value else 1
  }

  // ---------------------------------------------------------------------------
  // The seat counter.

  /** The "-" button: one less, never below one. */
  function Decrease(s: int): (r: int)
    ensures r >= 1
    ensures s > 1 ==> r == s - 1
    ensures s <= 1 ==> r == 1
  {
    if s - 1 > 1 then s - 1 else 1
  }

  /** The "+" button: one more, never above `m`. */
  function Increase(s: int, m: int): (r: int)
    ensures r <= m
    ensures s < m ==> r == s + 1
    ensures s >= m ==> r == m
  {
    if m < s + 1 then m else s + 1
  }

  /** The counts the counter can show: within [1, m], or the starting one, or `m` itself
      (which a trip with no free seats drives it to). */
  predicate Reachable(s: int, m: int) {
    (1 <= s <= m) || s == 1 || s == m
  }

  datatype Press = Minus | Plus

  function Apply(s: int, m: int, p: Press): int {
    match p
    case Minus => Decrease(s)
    case Plus => Increase(s, m)
  }

  /** The count after a sequence of presses. */
  function Run(s: int, m: int, presses: seq<Press>): int
    decreases |presses|
  {
    if presses == [] then s else Run(Apply(s, m, presses[0]), m, presses[1..])
  }

  /** Every press keeps the count reachable. */
  lemma ApplyKeepsReachable(s: int, m: int, p: Press)
    requires Reachable(s, m)
    ensures Reachable(Apply(s, m, p), m)
  {
  }

  /** From the initial count of one, any sequence of presses shows a reachable count; when
      the trip has at least one seat, that count lies between one and the trip's seats. */
  lemma {:induction false} RunReachable(s: int, m: int, presses: seq<Press>)
    requires Reachable(s, m)
    ensures Reachable(Run(s, m, presses), m)
    ensures m >= 1 ==> 1 <= Run(s, m, presses) <= m
    decreases |presses|
  {
    if presses != [] {
      ApplyKeepsReachable(s, m, presses[0]);
      RunReachable(Apply(s, m, presses[0]), m, presses[1..]);
    }
  }

  /** A trip listed with no free seats lets "+" set the count to zero, and "-" brings it
      back to one. */
  lemma FullTripCounter()
    ensures Run(1, 0, [Plus]) == 0
    ensures Run(1, 0, [Plus, Minus]) == 1
  {
    assert [Plus][1..] == [];
    assert [Plus, Minus][1..] == [Minus];
    assert [Minus][1..] == [];
  }

  /** `(trip.price || 0) * seats` */
  function PriceTotal(trip: Trip, seats: int): (total: int)
    ensures trip.price.None? ==> total == 0
    ensures trip.price.Some? ==> total == trip.price.value * seats
  {
    (if trip.price.Some? then trip.price.value else 0) * seats
  }

  /** The total grows by the unit price with each extra seat. */
  lemma PriceTotalStep(trip: Trip, seats: int)
    ensures PriceTotal(trip, seats + 1) == PriceTotal(trip, seats) + PriceTotal(trip, 1)
  {
  }

  // ---------------------------------------------------------------------------
  // The booking.

  /** `trip.driver?._id || trip.driverId` */
  function DriverOf(trip: Trip): (d: Option<string>)
    ensures Present(trip.driverRef) ==> d == trip.driverRef
    ensures !Present(trip.driverRef) ==> d == trip.driverId
  {
    if Present(trip.driverRef) then trip.driverRef else trip.driverId
  }

  /** `fullUser?._id`: absent without a user or when the user has no `_id`. */
  function PassengerOf(fullUser: Option<User>): (p: Option<string>)
    ensures p.Some? <==> fullUser.Some? && fullUser.value.dbId != ""
    ensures p.Some? ==> p.value == fullUser.value.dbId
  {
    if fullUser.Some? && fullUser.value.dbId != "" then Some(fullUser.value.dbId) else None
  }

  /** The reservation request. */
  datatype Booking = Booking(trip: string, passenger: Option<string>, driver: Option<string>,
                             seats: int, note: string, origin: string, destination: string,
                             date: string, price: Option<int>)

  function BookingOf(trip: Trip, fullUser: Option<User>, seats: int, note: string): (b: Booking)
    ensures b.trip == trip.id && b.passenger == PassengerOf(fullUser) && b.driver == DriverOf(trip)
    ensures b.seats == seats && b.note == note && b.price == trip.price
    ensures b.origin == trip.startPoint && b.destination == trip.endPoint && b.date == trip.departureTime
  {
    Booking(trip.id, PassengerOf(fullUser), DriverOf(trip), seats, note, trip.startPoint,
            trip.endPoint, trip.departureTime, trip.price)
  }

  datatype BookReply = ConnectionError | Refused(message: string) | Booked

  const BookingFailed := "Error creating reservation"

  class ConfirmRidePage {
    const trip: Trip
    const token: Option<string>
    var fullUser: Option<User>
    var seats: int
    var note: string
    var loading: bool
    var errorMsg: string

    /** The page opens with the session's user and token, one seat, and no note. */
    constructor (trip: Trip, user: Option<User>, token: Option<string>)
      ensures this.trip == trip && this.token == token && fullUser == user
      ensures seats == 1 && note == "" && !loading && errorMsg == ""
      ensures Valid()
    {
      this.trip := trip;
      this.token := token;
      fullUser := user;
      seats := 1;
      note := "";
      loading := false;
      errorMsg := "";
    }

    /** The counter invariant: the count shown is reachable for this trip. */
    predicate Valid()
      reads this
    {
      Reachable(seats, MaxAvailable(trip))
    }

    /** The full profile replaces the session's user when a token is present and the
        profile request answers (`profile` is `None` when it fails). */
    method FetchUser(profile: Option<User>)
      modifies this
      ensures Present(token) && profile.Some? ==> fullUser == profile
      ensures !(Present(token) && profile.Some?) ==> fullUser == old(fullUser)
      ensures seats == old(seats) && note == old(note)
      ensures loading == old(loading) && errorMsg == old(errorMsg)
    {
      if Present(token) && profile.Some? {
        fullUser := profile;
      }
    }

    method DecreaseSeats()
      requires Valid()
      modifies this
      ensures Valid() && seats == Decrease(old(seats))
      ensures fullUser == old(fullUser) && note == old(note)
      ensures loading == old(loading) && errorMsg == old(errorMsg)
    {
      ApplyKeepsReachable(seats, MaxAvailable(trip), Minus);
      seats := Decrease(seats);
    }

    method IncreaseSeats()
      requires Valid()
      modifies this
      ensures Valid() && seats == Increase(old(seats), MaxAvailable(trip))
      ensures fullUser == old(fullUser) && note == old(note)
      ensures loading == old(loading) && errorMsg == old(errorMsg)
    {
      ApplyKeepsReachable(seats, MaxAvailable(trip), Plus);
      seats := Increase(seats, MaxAvailable(trip));
    }

    method SetNote(text: string)
      modifies this
      ensures note == text
      ensures fullUser == old(fullUser) && seats == old(seats)
      ensures loading == old(loading) && errorMsg == old(errorMsg)
    {
      note := text;
    }

    /** Pressing "Book". Without a token the page goes to "/login" and stays marked as
        loading; otherwise the booking is sent and loading ends once the reply is handled.
        Only an accepted booking navigates, to "/reservations". */
    method HandleBook(reply: BookReply) returns (sent: Option<Booking>, navigateTo: Option<string>)
      modifies this
      ensures fullUser == old(fullUser) && seats == old(seats) && note == old(note)
      ensures !Present(token) ==> sent.None? && navigateTo == Some("/login") && loading && errorMsg == ""
      ensures Present(token) ==> sent == Some(BookingOf(trip, fullUser, seats, note)) && !loading
      ensures Present(token) && reply.Booked? ==> navigateTo == Some("/reservations") && errorMsg == ""
      ensures Present(token) && reply.Refused? ==>
                navigateTo.None? && errorMsg == OrElse(reply.message, BookingFailed)
      ensures Present(token) && reply.ConnectionError? ==> navigateTo.None? && errorMsg == BookingFailed
    {
      errorMsg := "";
      loading := true;
      if !Present(token) {
        return None, Some("/login");
      }
      sent := Some(BookingOf(trip, fullUser, seats, note));
      navigateTo := None;
      match reply {
        case Refused(message) =>
          errorMsg := OrElse(message, BookingFailed);
        case ConnectionError =>
          errorMsg := BookingFailed;
        case Booked =>
          navigateTo := Some("/reservations");
      }
      loading := false;
    }
  }
}
