/** The booking record and the two ways a create request turns into one. */
module Bookings {
  import opened Wrappers

  /** One reservation as the store holds it; `id` is the record's `_id`. */
  datatype Booking = Booking(id: int, name: string, hotel: string, arrivalDate: string, departureDate: string)

  /**
   * The fields of a parsed `POST /reservation` JSON body; `None` is a key
   * the body does not have.
   */
  datatype RestBody = RestBody(
    name: Option<string>, hotel: Option<string>, arrivalDate: Option<string>, departureDate: Option<string>)

  /** The GraphQL `BookingInput` object: all four fields are non-null strings. */
  datatype BookingInput = BookingInput(name: string, hotel: string, arrivalDate: string, departureDate: string)

  const NamePlaceholder := "[name]"
  const HotelPlaceholder := "[hotel]"
  const ArrivePlaceholder := "[date arrive]"
  const DepartPlaceholder := "[date depart]"

  /** JavaScript truthiness of a possibly missing string: present and not "". */
  predicate Truthy(v: Option<string>) {
    v.Some? && v.value != ""
  }

  /** `v || placeholder`: a truthy value is kept, a missing or empty one is replaced. */
  function Default(v: Option<string>, placeholder: string): (r: string)
    ensures Truthy(v) ==> r == v.value
    ensures !Truthy(v) ==> r == placeholder
  {
    match v
    case Some(s) => if s != "" then s else placeholder
    case None => placeholder
  }

  /** The record the REST create handler builds for a given id. */
  function RestRecord(id: int, body: RestBody): Booking {
    Booking(id,
      Default(body.name, NamePlaceholder),
      Default(body.hotel, HotelPlaceholder),
      Default(body.arrivalDate, ArrivePlaceholder),
      Default(body.departureDate, DepartPlaceholder))
  }

  /** The record the GraphQL `createBooking` resolver builds for a given id. */
  function GqlRecord(id: int, input: BookingInput): Booking {
    Booking(id, input.name, input.hotel, input.arrivalDate, input.departureDate)
  }

  /** The REST body that carries every field of a GraphQL input. */
  function AsBody(input: BookingInput): RestBody {
    RestBody(Some(input.name), Some(input.hotel), Some(input.arrivalDate), Some(input.departureDate))
  }

  /**
   * Sent the same four strings, the two create paths build the same record
   * exactly when none of the strings is empty: REST replaces "" by a
   * placeholder, GraphQL keeps it.
   */
  lemma RestAgreesWithGql(id: int, input: BookingInput)
    ensures RestRecord(id, AsBody(input)) == GqlRecord(id, input) <==>
      input.name != "" && input.hotel != "" && input.arrivalDate != "" && input.departureDate != ""
  {
  }

  /** A body without any of the four keys yields the four placeholders. */
  lemma EmptyBodyGivesPlaceholders(id: int)
    ensures RestRecord(id, RestBody(None, None, None, None)) ==
      Booking(id, "[name]", "[hotel]", "[date arrive]", "[date depart]")
  {
  }
}
