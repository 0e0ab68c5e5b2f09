/** The offers list a passenger browses: the trips the backend returns, narrowed by an
    optional "seats left" filter, each shown with fall-back texts for missing fields. */
module SeeOffers {
  import opened Common

  /** A trip offer as listed. Fields the backend may leave out are optional. */
  datatype Offer = Offer(id: string, startPoint: Option<string>, endPoint: Option<string>,
                         route: Option<string>, seats: Option<int>, seatsLeft: Option<int>,
                         price: Option<int>)

  // ---------------------------------------------------------------------------
  // Filtering.

  /** The offers whose `seatsLeft` is exactly `n`, in their original order. */
  function KeepSeatsLeft(offers: seq<Offer>, n: int): seq<Offer> {
    if offers == [] then []
    else if offers[0].seatsLeft == Some(n) then [offers[0]] + KeepSeatsLeft(offers[1..], n)
    else KeepSeatsLeft(offers[1..], n)
  }

  /** `filterSeats ? offers.filter(o => o.seatsLeft === filterSeats) : offers`: no filter, or
      the falsy 0, lists everything. */
  function FilteredOffers(offers: seq<Offer>, filter: Option<int>): (r: seq<Offer>)
    ensures filter.None? || filter.value == 0 ==> r == offers
  {
    if filter.Some? && filter.value != 0 then KeepSeatsLeft(offers, filter.value) else offers
  }

  /** The filter keeps each offer exactly as often as it occurs when its `seatsLeft` is `n`,
      and never otherwise. */
  lemma {:induction false} KeepSeatsLeftCounts(offers: seq<Offer>, n: int)
    ensures forall o :: multiset(KeepSeatsLeft(offers, n))[o] ==
                          (if o.seatsLeft == Some(n) then multiset(offers)[o] else 0)
    decreases |offers|
  {
    if offers != [] {
      KeepSeatsLeftCounts(offers[1..], n);
      assert offers == [offers[0]] + offers[1..];
    }
  }

  /** The filter keeps the original order: filtering a list split in two is filtering each
      part and joining the results. */
  lemma {:induction false} KeepSeatsLeftAppend(front: seq<Offer>, back: seq<Offer>, n: int)
    ensures KeepSeatsLeft(front + back, n) == KeepSeatsLeft(front, n) + KeepSeatsLeft(back, n)
    decreases |front|
  {
    if front != [] {
      assert (front + back)[1..] == front[1..] + back;
      KeepSeatsLeftAppend(front[1..], back, n);
    } else {
      assert front + back == back;
    }
  }

  /** With a filter `n`, an offer is listed exactly when it was fetched and has `n` seats
      left. */
  lemma FilterMembership(offers: seq<Offer>, n: int, o: Offer)
    requires n != 0
    ensures o in FilteredOffers(offers, Some(n)) <==> o in offers && o.seatsLeft == Some(n)
  {
    KeepSeatsLeftCounts(offers, n);
    assert o in FilteredOffers(offers, Some(n)) <==> multiset(FilteredOffers(offers, Some(n)))[o] > 0;
    assert o in offers <==> multiset(offers)[o] > 0;
  }

  /** `Number(value) || null` on the select's value: the empty option and anything that is
      not a number give no filter. */
  function ParseFilter(value: string): (r: Option<int>)
    ensures r.Some? ==> r.value != 0
    ensures Blank(value) ==> r.None?
  {
    match ToNumber(value)
    case NaN => None
    case Num(n) => if n != 0 then Some(n) else None
  }

  /** The select's options: the empty one clears the filter, the option `k` filters on `k`. */
  lemma SelectOptions(k: int)
    requires 1 <= k <= 4
    ensures ParseFilter("") == None
    ensures ParseFilter(IntToString(k)) == Some(k)
  {
    IntToStringRoundTrip(k);
  }

  // ---------------------------------------------------------------------------
  // Display.

  /** `offer.seats != null ? offer.seats.toString().padStart(2, "0") : "00"` */
  function SeatsDisplay(seats: Option<int>): (t: string)
    ensures |t| >= 2
    ensures seats.None? ==> t == "00"
  {
    if seats.Some? then PadStart(IntToString(seats.value), 2, '0') else "00"
  }

  /** A count from 0 to 99 is shown as exactly two digits that read back as the count. */
  lemma SeatsDisplayRoundTrip(n: int)
    requires 0 <= n < 100
    ensures |SeatsDisplay(Some(n))| == 2
    ensures AllDigits(SeatsDisplay(Some(n))) && DecimalValue(SeatsDisplay(Some(n))) == n
  {
    var s := IntToString(n);
    assert s == NatToString(n);
    if n >= 10 {
      assert NatToString(n) == NatToString(n / 10) + [DigitChar(n % 10)];
    }
    PadStartZerosValue(s, 2);
  }

  /** The `??` operator on an optional text: only a missing value falls back; an empty one is
      kept. The offer card shows `startPoint ?? "Sin origen"` and `endPoint ?? "Sin destino"`. */
  function Nullish(x: Option<string>, fallback: string): (t: string)
    ensures x.Some? ==> t == x.value
    ensures x.None? ==> t == fallback
  {
    if x.Some? then x.value else fallback
  }

  const NoOrigin := "Sin origen"
  const NoDestination := "Sin destino"

  /** `route || "No especificada"`: an empty route falls back too. */
  function RouteDisplay(route: Option<string>): (t: string)
    ensures Present(route) ==> t == route.value
    ensures !Present(route) ==> t == "No especificada"
  {
    if Present(route) then route.value else "No especificada"
  }

  /** `price != null ? "$" + price : "N/A"`: a price of 0 is shown, not replaced. */
  function PriceDisplay(price: Option<int>): (t: string)
    ensures price.None? ==> t == "N/A"
    ensures price.Some? ==> t == "$" + IntToString(price.value)
  {
    if price.Some? then "$" + IntToString(price.value) else "N/A"
  }

  /** The two fall-back operators differ on empty text and zero: `??` keeps them, `||`
      replaces them. */
  lemma FallbacksDiffer()
    ensures Nullish(Some(""), NoOrigin) == "" && RouteDisplay(Some("")) == "No especificada"
    ensures PriceDisplay(Some(0)) == "$0"
  {
    assert IntToString(0) == "0";
  }
}
