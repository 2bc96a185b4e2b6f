# Booking store of the reservations backend

The reservations backend in `app.js` serves one in-memory array of booking
records, `bookingsDB`, over two interfaces: GraphQL resolvers (`bookings`,
`booking`, `createBooking`) and REST handlers (`GET /reservations`,
`GET /reservations/:id`, `POST /reservation`). This project models that store
and the six operations on it, and proves what they do:

- Both creates give the new record the `_id` "length before the call plus one".
  They append exactly that one record at the end and return the record they appended.
- The REST create applies JavaScript's `||` to each field. A present, non-empty
  string is kept verbatim. A missing or empty field becomes its placeholder:
  `"[name]"`, `"[hotel]"`, `"[date arrive]"` or `"[date depart]"`.
- The GraphQL create copies its four input strings unchanged. If `bookingInput`
  is omitted, it throws before it touches the store.
- Both lookups are `findIndex` followed by indexing. They return the record at
  the smallest index that matches, and nothing when `findIndex` gives -1.
- The REST lookup compares `_id.toString()` with the path segment. This is proved
  to be the GraphQL lookup of the integer that the path spells in canonical decimal.
  A path such as `"01"`, `"+1"` or `"-0"` therefore matches no record.
- List and lookup change nothing: they are methods with no `modifies` clause.
  Both creates keep the invariant "every record's id is its position plus one".
  In a store where that invariant holds, a created record is found again by its
  id on each protocol.

Modules, in dependency order:

- `wrappers.dfy`: `Option` (standing for `undefined`) and `Result`.
- `decimal.dfy`: `Render`, which models `toString()` on integers, and its inverse `Parse`.
- `bookings.dfy`: the record, the two create inputs, and the defaulting rule.
- `lookup.dfy`: `findIndex`, both lookups, and the store invariant.
- `store.dfy`: the class `BookingStore`, whose `records` field stands for `bookingsDB`.
- `scenarios.dfy`: client code that uses the class contracts on short sessions from an empty store.

The fixture that seeds `bookingsDB` (`./lib/bookingData`) is not part of this
model. The constructor therefore accepts any initial sequence of records. Every
property above that depends on the seed carries an explicit hypothesis about it.

## Model

| member | source | states |
|---|---|---|
| `Store.BookingStore.constructor` | app.js:26 | the store starts as the seed fixture, which may be any sequence of records |
| `Store.BookingStore.List` | app.js:67-69 | `bookings` (and REST `GET /reservations`, app.js:97-99) return the whole store and change nothing |
| `Store.BookingStore.FindById` | app.js:70-75 | GraphQL `booking` returns the first-match lookup by integer id and changes nothing |
| `Store.BookingStore.FindByIdString` | app.js:101-106 | REST `GET /reservations/:id` returns the first-match lookup by rendered id and changes nothing |
| `Store.BookingStore.CreateRest` | app.js:108-118 | new id is old length + 1; each field is the supplied value if truthy, else its placeholder; exactly this record is appended and returned; the new record's id finds it unless an earlier record already had that id; sequential ids are preserved, and in a sequential store the path `id.toString()` finds the new record |
| `Store.BookingStore.CreateGql` | app.js:76-86 | with input: new id is old length + 1, the four fields are copied unchanged, exactly this record is appended and returned, and its id finds it unless an earlier record had that id; without input: failure and store unchanged; sequential ids preserved |
| `Bookings.Default` | app.js:111-114 | `v \|\| placeholder` on a possibly missing string: a present non-empty value is kept, a missing or empty one gives the placeholder |
| `Bookings.RestAgreesWithGql` | app.js:76-86 | for the same four strings, the REST and GraphQL records coincide exactly when none of the strings is empty |
| `Bookings.EmptyBodyGivesPlaceholders` | app.js:109-115 | a body without any key yields the record with the four placeholder literals |
| `Lookup.FindIndex` | app.js:71-73 | `findIndex`: -1 exactly when no element satisfies the predicate, otherwise a satisfying index with no satisfying index before it |
| `Lookup.ById` | app.js:70-75 | no result exactly when no record has the id; otherwise the result is the record at the smallest index whose `_id` equals the id |
| `Lookup.ByIdText` | app.js:101-105 | no result exactly when no record's rendered id equals the path; otherwise the record at the smallest index whose rendered id equals it |
| `Lookup.ByIdTextIsById` | app.js:101-105 | the REST lookup of a path equals the GraphQL lookup of the integer the path parses to, and finds nothing for a path that is no integer's rendering |
| `Lookup.LeadingZeroFindsNothing` | app.js:103 | the path "01" matches no record in any store, so it does not find id 1 |
| `Lookup.FindIndexAppend` | app.js:84 | after an append, `findIndex` still finds an earlier match first, else the appended element if it matches, else -1 |
| `Lookup.ByIdAppend` | app.js:84 | lookup after an append: an earlier record with the id wins; otherwise the appended record if its id matches; otherwise nothing |
| `Lookup.AppendKeepsSequential` | app.js:110-116 | appending a record whose id is old length + 1 keeps "every id is its index plus one" |
| `Lookup.SequentialById` | app.js:71-74 | with sequential ids, id `k` in 1..length yields the `k`-th record, and every other id yields nothing |
| `Lookup.SequentialByIdText` | app.js:102-105 | with sequential ids, the path `k.toString()` yields the `k`-th record for `k` in 1..length, and nothing otherwise |
| `Decimal.NatDigits` | app.js:103 | the digits of a natural number form a canonical numeral (digits only, no leading zero), with first digit '0' exactly for zero |
| `Decimal.ParseRender` | app.js:103 | parsing the rendering of any integer gives the integer back |
| `Decimal.RenderParse` | app.js:103 | any string the parser accepts is the rendering of the integer it yields |
| `Decimal.RenderIff` | app.js:103 | `n.toString() === s` holds exactly when `s` parses to `n` |
| `Decimal.RenderInjective` | app.js:103 | two integers have the same rendering exactly when they are equal |

## Left out

- Express setup, JSON body parsing, routing, response serialization and `app.listen` (app.js:10-12, 92-94, 120) are framework I/O. The handlers' results are modelled as return values.
- The CORS middleware and its `OPTIONS` short-circuit (app.js:15-23) only set headers on the framework's response object.
- The GraphQL schema string, `buildSchema` and `express-graphql` execution (app.js:29-65) are not modelled. Their non-null checks, `Int`/`String` coercion and error envelopes live in libraries that are not part of this model. In particular, `FindById` takes any integer, although GraphQL admits only 32-bit `Int` values. A lookup miss is `None`, and the library would then report a non-null violation.
- The `graphiql` flag (app.js:88) is configuration read from the environment.
- The seed fixture `./lib/bookingData` (app.js:4) is not part of this model. The constructor takes any records, and every seed-dependent property is stated under a hypothesis.
- `_id` is modelled as an unbounded integer. Seed records with non-integer or string ids are not modelled. JavaScript's exponent form of `toString()` for magnitudes of 10^21 and above is not modelled either, nor is the precision lost above 2^53.
- REST body fields are modelled as strings or absent. JSON values of other types (`null`, `false`, `0`, numbers, objects) that `||` would replace or keep are not modelled.
- Concurrency needs no modelling: Node runs each handler to completion on one event loop, so the operations are modelled as sequential calls.
