/** The driver's trip form: six text fields, sent with the stored token, the seat count and
    price read as numbers. The reply is a parameter here. */
module CreateTrip {
  import opened Common
  import opened Session

  datatype TripField = StartPoint | EndPoint | Route | DepartureTime | Seats | Price

  datatype TripForm = TripForm(startPoint: string, endPoint: string, route: string,
                               departureTime: string, seats: string, price: string) {
    function Get(f: TripField): string {
      match f
      case StartPoint => startPoint
      case EndPoint => endPoint
      case Route => route
      case DepartureTime => departureTime
      case Seats => seats
      case Price => price
    }

    /** `{ ...trip, [name]: value }` */
    function With(f: TripField, value: string): (r: TripForm)
      ensures r.Get(f) == value
      ensures forall g :: g != f ==> r.Get(g) == Get(g)
    {
      match f
      case StartPoint => this.(startPoint := value)
      case EndPoint => this.(endPoint := value)
      case Route => this.(route := value)
      case DepartureTime => this.(departureTime := value)
      case Seats => this.(seats := value)
      case Price => this.(price := value)
    }
  }

  const EmptyForm := TripForm("", "", "", "", "", "")

  /** The request body: the form's text fields, with seats and price as numbers. */
  datatype TripPayload = TripPayload(startPoint: string, endPoint: string, route: string,
                                     departureTime: string, seats: Number, price: Number)

  function PayloadOf(form: TripForm): (p: TripPayload)
    ensures p.startPoint == form.startPoint && p.endPoint == form.endPoint
    ensures p.route == form.route && p.departureTime == form.departureTime
    ensures p.seats == ToNumber(form.seats) && p.price == ToNumber(form.price)
  {
    TripPayload(form.startPoint, form.endPoint, form.route, form.departureTime,
                ToNumber(form.seats), ToNumber(form.price))
  }

  /** Numbers typed as their decimal form reach the backend as those numbers; an empty seat
      or price field reaches it as 0. */
  lemma PayloadNumbers(form: TripForm, seats: int, price: int)
    ensures form.seats == IntToString(seats) && form.price == IntToString(price) ==>
              PayloadOf(form).seats == Num(seats) && PayloadOf(form).price == Num(price)
    ensures form.seats == "" ==> PayloadOf(form).seats == Num(0)
    ensures form.price == "" ==> PayloadOf(form).price == Num(0)
  {
    IntToStringRoundTrip(seats);
    IntToStringRoundTrip(price);
  }

  datatype TripReply = Thrown | Refused(message: string) | Created

  const NoToken := "No se encontró token. Inicia sesión."
  const CreatedMessage := "✅ Trip created successfully!"
  const CreateFailed := "Error al crear el viaje"
  const ConnectionFailed := "❌ Error al conectar con el servidor"

  class CreateTripPage {
    var trip: TripForm
    var message: string

    constructor ()
      ensures trip == EmptyForm && message == ""
    {
      trip := EmptyForm;
      message := "";
    }

    method HandleChange(f: TripField, value: string)
      modifies this
      ensures trip == old(trip).With(f, value) && message == old(message)
    {
      trip := trip.With(f, value);
    }

    /** Submitting. Without a stored token only the message changes; otherwise the payload is
        sent, success empties the form, and a failure keeps it. */
    method HandleSubmit(storage: LocalStorage, reply: TripReply) returns (sent: Option<TripPayload>)
      modifies this
      ensures !Present(storage.GetItem("token")) ==> sent.None? && trip == old(trip) && message == NoToken
      ensures Present(storage.GetItem("token")) ==> sent == Some(PayloadOf(old(trip)))
      ensures Present(storage.GetItem("token")) && reply.Created? ==> trip == EmptyForm && message == CreatedMessage
      ensures Present(storage.GetItem("token")) && reply.Refused? ==>
                trip == old(trip) && message == "❌ " + OrElse(reply.message, CreateFailed)
      ensures Present(storage.GetItem("token")) && reply.Thrown? ==>
                trip == old(trip) && message == ConnectionFailed
    {
      if !Present(storage.GetItem("token")) {
        message := NoToken;
        return None;
      }
      sent := Some(PayloadOf(trip));
      match reply {
        case Created =>
          message := CreatedMessage;
          trip := EmptyForm;
        case Refused(text) =>
          message := "❌ " + OrElse(text, CreateFailed);
        case Thrown =>
          message := ConnectionFailed;
      }
    }
  }
}
