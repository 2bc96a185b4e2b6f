/**
 * The module-level `bookingsDB` array that both protocol layers share, with
 * the list, lookup and create operations of the GraphQL resolvers and the
 * REST handlers.
 */
module Store {
  import opened Wrappers
  import opened Bookings
  import opened Lookup
  import Decimal

  /** Why a GraphQL `createBooking` call fails inside the resolver. */
  datatype GqlError =
    /** `bookingInput` was omitted or null, so reading `bookingInput.name` throws. */
    | MissingInput

  class BookingStore {
    /** The records in insertion order. */
    var records: seq<Booking>

    /** The store as seeded from the fixture, which may hold any records. */
    constructor (seed: seq<Booking>)
      ensures records == seed
    {
      records := seed;
    }

    /** GraphQL `bookings` and REST `GET /reservations`: the whole store, unchanged. */
    method List() returns (all: seq<Booking>)
      ensures all == records
    {
      all := records;
    }

    /** GraphQL `booking(idInput)`: the first record whose `_id` is `id`, if any. */
    method FindById(id: int) returns (r: Option<Booking>)
      ensures r == ById(records, id)
    {
      r := ById(records, id);
    }

    /** REST `GET /reservations/:id`: the first record whose `_id.toString()` is `text`, if any. */
    method FindByIdString(text: string) returns (r: Option<Booking>)
      ensures r == ByIdText(records, text)
    {
      r := ByIdText(records, text);
    }

    /** REST `POST /reservation`: build a record with id length + 1, defaults filled in, and append it. */
    method CreateRest(body: RestBody) returns (b: Booking)
      modifies this
      ensures b.id == |old(records)| + 1
      ensures b.name == Default(body.name, NamePlaceholder)
      ensures b.hotel == Default(body.hotel, HotelPlaceholder)
      ensures b.arrivalDate == Default(body.arrivalDate, ArrivePlaceholder)
      ensures b.departureDate == Default(body.departureDate, DepartPlaceholder)
      ensures records == old(records) + [b]
      ensures ById(records, b.id) == if ById(old(records), b.id).Some? then ById(old(records), b.id) else Some(b)
      ensures SequentialIds(old(records)) ==> SequentialIds(records)
      ensures SequentialIds(old(records)) ==> ByIdText(records, Decimal.Render(b.id)) == Some(b)
    {
      b := RestRecord(|records| + 1, body);
      ByIdAppend(records, b, b.id);
      records := records + [b];
      if SequentialIds(old(records)) {
        SequentialByIdText(records, b.id);
      }
    }

    /**
     * GraphQL `createBooking(bookingInput)`: build a record with id length + 1
     * from the input's fields as given and append it; with no input the
     * resolver throws before touching the store.
     */
    method CreateGql(input: Option<BookingInput>) returns (r: Result<Booking, GqlError>)
      modifies this
      ensures input.None? ==> r == Failure(MissingInput) && records == old(records)
      ensures input.Some? ==> r.Success?
      ensures r.Success? ==> var b := r.value;
        && b.id == |old(records)| + 1
        && b.name == input.value.name
        && b.hotel == input.value.hotel
        && b.arrivalDate == input.value.arrivalDate
        && b.departureDate == input.value.departureDate
        && records == old(records) + [b]
        && ById(records, b.id) == (if ById(old(records), b.id).Some? then ById(old(records), b.id) else Some(b))
      ensures SequentialIds(old(records)) ==> SequentialIds(records)
    {
      match input
      case None =>
        r := Failure(MissingInput);
      case Some(given) =>
        var b := GqlRecord(|records| + 1, given);
        ByIdAppend(records, b, b.id);
        records := records + [b];
        r := Success(b);
    }
  }
}
