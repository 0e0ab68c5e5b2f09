/** The reservations page: the signed-in user's reservations fetched once per session
    change, stored either as a flat list or as "today"/"tomorrow" buckets, rendered by a fixed
    precedence, and one card per reservation whose buttons depend on the user's role and the
    reservation's status. Replies of the backend are parameters here. */
module Reservations {
  import opened Common
  import opened Session

  // ---------------------------------------------------------------------------
  // Fetching.

  /** The reply to the list request: the request or the body parse threw, or an HTTP status
      (`ok`) with a parsed JSON body. */
  datatype FetchReply = Thrown | Answer(ok: bool, body: Json)

  /** What the page stores: the body itself when it is an array, or the two buckets. */
  datatype Listing = Flat(items: seq<Json>) | Buckets(today: Json, tomorrow: Json)

  const FetchError := "Error fetching reservations"

  /** The key the list is requested under: the user's `id`, else its `_id`; no request at
      all without a user or with neither identifier. */
  function FetchKey(user: Option<User>): (key: Option<string>)
    ensures key.None? <==> user.None? || (user.value.id == "" && user.value.dbId == "")
    ensures key.Some? && user.value.id != "" ==> key.value == user.value.id
    ensures key.Some? && user.value.id == "" ==> key.value == user.value.dbId
  {
    if user.None? || (user.value.id == "" && user.value.dbId == "") then None
    else Some(OrElse(user.value.id, user.value.dbId))
  }

  /** The listing an answer leads to, or `None` where the effect lands in its error branch:
      a thrown request, a non-OK status, and an OK `null` body (reading `today` off `null`
      throws). An array is kept as it is; an object with a truthy `today` or `tomorrow`
      becomes the two buckets, a falsy bucket replaced by `[]`; any other body is an empty
      list. */
  function Normalize(reply: FetchReply): (r: Option<Listing>)
    ensures r.None? <==> reply.Thrown? || !reply.ok || reply.body.JNull?
    ensures r.Some? && reply.body.JArr? ==> r.value == Flat(reply.body.items)
    ensures r.Some? && r.value.Buckets? <==>
              && r.Some? && reply.body.JObj?
              && (Truthy(OrJson(Property(reply.body, "today"), JNull))
                  || Truthy(OrJson(Property(reply.body, "tomorrow"), JNull)))
    ensures r.Some? && r.value.Buckets? ==>
              && r.value.today == OrJson(Property(reply.body, "today"), JArr([]))
              && r.value.tomorrow == OrJson(Property(reply.body, "tomorrow"), JArr([]))
    ensures r.Some? && !reply.body.JArr? && !r.value.Buckets? ==> r.value == Flat([])
  {
    match reply
    case Thrown => None
    case Answer(ok, body) =>
      if !ok || body.JNull? then None
      else if body.JArr? then Some(Flat(body.items))
      else
        var today, tomorrow := Property(body, "today"), Property(body, "tomorrow");
        if Truthy(OrJson(today, JNull)) || Truthy(OrJson(tomorrow, JNull)) then
          Some(Buckets(OrJson(today, JArr([])), OrJson(tomorrow, JArr([]))))
        else Some(Flat([]))
  }

  /** Both buckets of a normalised answer are truthy, so the page always shows them as
      columns; a reservation list never appears as both at once. */
  lemma NormalizedBucketsTruthy(reply: FetchReply)
    requires Normalize(reply).Some? && Normalize(reply).value.Buckets?
    ensures Truthy(Normalize(reply).value.today) && Truthy(Normalize(reply).value.tomorrow)
  {
  }

  // ---------------------------------------------------------------------------
  // Cards and their buttons.

  /** The buttons a card shows. */
  datatype Actions = AcceptDecline | StatusOnly(status: Json) | CancelOnly | NoActions

  /** A card's buttons. `isDriver` and `isPassenger` are read as "the role is driver" and
      "the role is passenger": a driver may accept or decline a pending reservation and
      otherwise sees its status; a passenger may cancel any reservation that is not already
      cancelled; any other role sees nothing. */
  function Affordances(role: string, status: Json): (a: Actions)
    ensures a == AcceptDecline <==> role == "driver" && status == JStr("pending")
    ensures a.StatusOnly? <==> role == "driver" && status != JStr("pending")
    ensures a.StatusOnly? ==> a.status == status
    ensures a == CancelOnly <==> role == "passenger" && status != JStr("cancelled")
    ensures a == NoActions <==> (role != "driver" && role != "passenger")
                                || (role == "passenger" && status == JStr("cancelled"))
  {
    if role == "driver" then
      if status == JStr("pending") then AcceptDecline else StatusOnly(status)
    else if role == "passenger" then
      if status != JStr("cancelled") then CancelOnly else NoActions
    else NoActions
  }

  /** The statuses a card's buttons send. */
  function Targets(a: Actions): seq<string> {
    match a
    case AcceptDecline => ["confirmed", "declined"]
    case CancelOnly => ["cancelled"]
    case _ => []
  }

  /** No button sends the status the reservation already has, and "pending" is never sent.
      Only the driver's buttons accept or decline, only the passenger's cancel. */
  lemma ButtonsChangeStatus(role: string, status: Json)
    ensures forall t :: t in Targets(Affordances(role, status)) ==> JStr(t) != status && t != "pending"
    ensures "confirmed" in Targets(Affordances(role, status)) ==> role == "driver"
    ensures "cancelled" in Targets(Affordances(role, status)) ==> role == "passenger"
  {
  }

  /** A passenger may cancel a reservation the driver has already confirmed or declined:
      only "cancelled" hides the button. */
  lemma PassengerCancelsSettledReservations()
    ensures Affordances("passenger", JStr("confirmed")) == CancelOnly
    ensures Affordances("passenger", JStr("declined")) == CancelOnly
    ensures Affordances("driver", JStr("confirmed")) == StatusOnly(JStr("confirmed"))
  {
  }

  function Status(reservation: Json): Json {
    match Property(reservation, "status")
    case None => JNull
    case Some(s) => s
  }

  /** `String(x)` of a JSON value, as a template literal prints it: arrays join their
      elements with commas, printing `null` elements as nothing; objects print as
      "[object Object]". */
  function JsText(j: Json): string
    decreases j, 1
  {
    match j
    case JNull => "null"
    case JBool(b) => if b then "true" else "false"
    case JNum(n) => IntToString(n)
    case JStr(s) => s
    case JObj(_) => "[object Object]"
    case JArr(items) => JoinText(items, j)
  }

  function JoinText(items: seq<Json>, parent: Json): string
    requires forall x :: x in items ==> x < parent
    decreases parent, 0, |items|
  {
    if items == [] then ""
    else
      assert items[0] in items;
      var head := if items[0].JNull? then "" else JsText(items[0]);
      assert forall x :: x in items[1..] ==> x in items;
      if |items| == 1 then head else head + "," + JoinText(items[1..], parent)
  }

  /** `${reservation._id}`: an absent identifier prints as "undefined". */
  function IdText(reservation: Json): (t: string)
    ensures Property(reservation, "_id") == None ==> t == "undefined"
    ensures Property(reservation, "_id") == Some(JNull) ==> t == "null"
  {
    match Property(reservation, "_id")
    case None => "undefined"
    case Some(id) => JsText(id)
  }

  /** The status update request: `PUT /reservations/<_id>` with the new status. */
  datatype StatusUpdate = StatusUpdate(path: string, status: string)

  /** What follows the reply: the page reloads after an OK answer; anything else is only
      logged. */
  datatype AfterUpdate = Reload(notice: string) | LogOnly

  datatype UpdateReply = UpdateThrown | UpdateAnswer(ok: bool)

  function UpdateStatus(reservation: Json, newStatus: string, reply: UpdateReply): (r: (StatusUpdate, AfterUpdate))
    ensures r.0 == StatusUpdate("/reservations/" + IdText(reservation), newStatus)
    ensures r.1.Reload? <==> reply == UpdateAnswer(true)
    ensures r.1.Reload? ==> r.1.notice == "Reservation " + newStatus
  {
    var request := StatusUpdate("/reservations/" + IdText(reservation), newStatus);
    if reply == UpdateAnswer(true) then (request, Reload("Reservation " + newStatus)) else (request, LogOnly)
  }

  /** A reservation whose `_id` is a string is updated at that path. */
  lemma UpdateTargetsId(reservation: Json, id: string, newStatus: string, reply: UpdateReply)
    requires Property(reservation, "_id") == Some(JStr(id))
    ensures UpdateStatus(reservation, newStatus, reply).0.path == "/reservations/" + id
  {
  }

  // ---------------------------------------------------------------------------
  // Rendering.

  /** One bucket's column: a card per reservation, "No rides for ...", or a render failure
      (a TypeError thrown while rendering). */
  datatype Column = Cards(actions: seq<Actions>) | NoRides | RenderFault

  datatype Screen = ErrorText(message: string) | Loading | Columns(today: Column, tomorrow: Column) | NoneFound

  /** `v > 0` for a JSON value: `true` is 1, `null` and `false` are 0, and text, arrays and
      objects are converted to text and then to a number (`NaN` is not above 0). */
  predicate AboveZero(v: Json) {
    match v
    case JNull => false
    case JBool(b) => b
    case JNum(n) => n > 0
    case _ => ToNumber(JsText(v)).Num? && ToNumber(JsText(v)).value > 0
  }

  /** `x && x.length > 0`: text and arrays have a length; an object has one only as an
      own "length" field; numbers and `true` have none. */
  predicate LengthPositive(x: Json) {
    match x
    case JStr(s) => |s| > 0
    case JArr(items) => |items| > 0
    case JObj(_) => Property(x, "length").Some? && AboveZero(Property(x, "length").value)
    case _ => false
  }

  /** The buttons of each card, in the order of the reservations. */
  function CardActions(items: seq<Json>, role: string): (r: seq<Actions>)
    ensures |r| == |items|
    ensures forall i :: 0 <= i < |items| ==> r[i] == Affordances(role, Status(items[i]))
  {
    if items == [] then [] else [Affordances(role, Status(items[0]))] + CardActions(items[1..], role)
  }

  /** `x && x.length > 0 ? x.map(card) : "No rides ..."`. Only an array can be mapped over,
      and each card's key reads `res._id`, which throws on a `null` entry. */
  function ColumnOf(x: Json, role: string): (c: Column)
    ensures c == NoRides <==> !LengthPositive(x)
    ensures c.Cards? <==> x.JArr? && |x.items| > 0 && JNull !in x.items
    ensures c.Cards? ==> |c.actions| == |x.items|
                         && forall i :: 0 <= i < |x.items| ==> c.actions[i] == Affordances(role, Status(x.items[i]))
    ensures c == RenderFault <==> || (x.JStr? && |x.s| > 0)
                                  || (x.JObj? && LengthPositive(x))
                                  || (x.JArr? && JNull in x.items)
  {
    match x
    case JArr(items) =>
      if |items| == 0 then NoRides
      else if JNull in items then RenderFault
      else Cards(CardActions(items, role))
    case _ => if LengthPositive(x) then RenderFault else NoRides
  }

  /** The two shapes that pass the length test and still throw: an object with a positive
      "length" field, and an array holding `null`. */
  lemma ColumnFaults(role: string)
    ensures ColumnOf(JObj(map["length" := JNum(1)]), role) == RenderFault
    ensures ColumnOf(JObj(map["length" := JStr("3")]), role) == RenderFault
    ensures ColumnOf(JArr([JNull]), role) == RenderFault
    ensures ColumnOf(JObj(map["length" := JNum(0)]), role) == NoRides
  {
    assert ToNumber("3") == Num(3) by {
      IntToStringRoundTrip(3);
      assert IntToString(3) == "3";
    }
  }

  /** An error wins, then loading, then the buckets; anything else, a flat list included,
      shows "No reservations found.". */
  function Render(error: Option<string>, loading: bool, listing: Listing, role: string): (v: Screen)
    ensures error.Some? ==> v == ErrorText(error.value)
    ensures error.None? && loading ==> v == Loading
    ensures error.None? && !loading && listing.Flat? ==> v == NoneFound
    ensures v.Columns? ==> listing.Buckets? && v.today == ColumnOf(listing.today, role)
                           && v.tomorrow == ColumnOf(listing.tomorrow, role)
  {
    if error.Some? then ErrorText(error.value)
    else if loading then Loading
    else
      match listing
      case Flat(_) => NoneFound
      case Buckets(today, tomorrow) =>
        if Truthy(today) || Truthy(tomorrow) then Columns(ColumnOf(today, role), ColumnOf(tomorrow, role))
        else NoneFound
  }

  /** An OK array answer is stored but never displayed; an OK bucketed answer is always
      displayed as two columns. */
  lemma AnswerShapes(body: Json, role: string)
    ensures body.JArr? ==> Render(None, false, Normalize(Answer(true, body)).value, role) == NoneFound
    ensures Normalize(Answer(true, body)).Some? && Normalize(Answer(true, body)).value.Buckets? ==>
              Render(None, false, Normalize(Answer(true, body)).value, role).Columns?
  {
  }

  // ---------------------------------------------------------------------------
  // The page.

  class ReservationsPage {
    var reservations: Listing
    var loading: bool
    var error: Option<string>

    constructor ()
      ensures reservations == Flat([]) && loading && error.None?
    {
      reservations := Flat([]);
      loading := true;
      error := None;
    }

    /** The fetch effect. Without a key nothing happens, so the page keeps showing
        "Loading"; with one, the reply either replaces the stored listing or sets the error,
        which keeps the previous listing, and loading ends. */
    method FetchReservations(user: Option<User>, reply: FetchReply) returns (key: Option<string>)
      modifies this
      ensures key == FetchKey(user)
      ensures key.None? ==> reservations == old(reservations) && loading == old(loading) && error == old(error)
      ensures key.Some? ==> !loading
      ensures key.Some? && Normalize(reply).Some? ==> reservations == Normalize(reply).value && error.None?
      ensures key.Some? && Normalize(reply).None? ==> reservations == old(reservations) && error == Some(FetchError)
    {
      key := FetchKey(user);
      if key.None? {
        return;
      }
      loading := true;
      error := None;
      var listing := Normalize(reply);
      if listing.Some? {
        reservations := listing.value;
      } else {
        error := Some(FetchError);
      }
      loading := false;
    }
  }

  /** Before any key is known the page shows "Loading"; a user with neither identifier
      never leaves it. */
  lemma NoKeyKeepsLoading(role: string)
    ensures Render(None, true, Flat([]), role) == Loading
  {
  }
}
