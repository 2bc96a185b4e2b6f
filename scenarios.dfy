/** Client code that follows the store's contracts through short sessions. */
module Scenarios {
  import opened Wrappers
  import opened Bookings
  import opened Lookup
  import opened Store

  /** From an empty store, a REST create with every field gets id 1 and keeps the fields. */
  method CreateIntoEmptyStore() {
    var store := new BookingStore([]);
    var alice := store.CreateRest(RestBody(Some("Alice"), Some("Grand"), Some("2024-01-01"), Some("2024-01-05")));
    assert alice == Booking(1, "Alice", "Grand", "2024-01-01", "2024-01-05");
    var all := store.List();
    assert all == [alice];
  }

  /** An empty body, or an empty string, gives the placeholders on the REST path only. */
  method DefaultsOnlyOnRest() {
    var store := new BookingStore([]);
    var blank := store.CreateRest(RestBody(None, Some(""), None, None));
    assert blank == Booking(1, "[name]", "[hotel]", "[date arrive]", "[date depart]");
    var r := store.CreateGql(Some(BookingInput("Bob", "", "2024-02-01", "2024-02-03")));
    assert r == Success(Booking(2, "Bob", "", "2024-02-01", "2024-02-03"));
    var failed := store.CreateGql(None);
    assert failed.Failure?;
    var all := store.List();
    assert all == [blank, r.value];
  }

  /** Lookups in a store of two created records. */
  method LookupAfterCreates(first: RestBody, second: BookingInput) {
    var store := new BookingStore([]);
    var a := store.CreateRest(first);
    var r := store.CreateGql(Some(second));
    var all := store.List();
    var found := store.FindById(2);
    SequentialById(all, 2);
    assert found == Some(r.value);
    var missing := store.FindById(3);
    SequentialById(all, 3);
    assert missing == None;
    var byText := store.FindByIdString("01");
    LeadingZeroFindsNothing(all);
    assert byText == None;
  }
}
