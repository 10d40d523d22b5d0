# Room-booking client: store, entity services and dashboard figures

This project models the data layer of a browser client for managing meeting
rooms, equipment and bookings against a remote CRUD API. The model covers
three parts:

- **The client-side store** (`AppStore.Store`). It is a class holding three
  sequences: `rooms`, `equipment` and `bookings`. Each action takes the
  server's reply as a parameter. It changes its own collection, and only after
  the call succeeds:
  - a fetch replaces the collection wholesale;
  - an add appends the confirmed entity;
  - an update replaces every element whose id equals the id the server
    returned;
  - a delete filters the id out.
- **The three entity service objects** (`RoomService.Room`,
  `EquipmentService.Equipment` and `BookingService.Booking`). Each is a class
  whose `FromJson`, `Create` and `Update` overwrite its fields in place. The
  room and equipment classes also have an `Assign`, the `Object.assign` the
  store applies to a fresh instance; the booking class has none, because no
  store action assigns into a booking. Each class is proved against pure
  functions on value snapshots:
  - `Parse` for `fromJSON`;
  - the payload builders for `toCreate` / `toUpdate`, the booking create
    payload and the booking update form;
  - `Outcome` / `CreateOutcome` / `UpdateOutcome` for the status check
    followed by `fromJSON`;
  - `GetAll` for the policy that any failure gives an empty list.
- **The dashboard figures** (`Dashboard`). These are the upcoming-bookings
  filter, the room count, the total capacity (a left fold, as `reduce` is) and
  the room label shown under each booking.

Values are modelled as follows:

- JSON bodies are records of `Field` values (module `Json`). A `Field` is
  `Undefined` (an absent property), `Null`, or `Defined(v)`. A body that is
  `null` as a whole is the record whose fields are all `Undefined`, because
  `json?.f` is `undefined` for every `f`. The instance fields that `fromJSON`
  copies from a body keep that distinction.
- A reply (module `Http`) is either `Unreachable` (the `fetch` promise
  rejects) or a `Response(status, body)`. A `body` of `None` is one that
  `response.json()` cannot read. For a list endpoint, `None` also stands for
  `null` or a body that is not a list. `response.ok` is a status from 200 to
  299.
- The two empty values behave alike under `||`, `?:` and `&&`, so a missing
  timestamp, room or equipment list is treated the same whether it is absent
  or `null`. They differ where the source converts or adds them:
  `FormData.append` and template literals turn them into the texts
  `"undefined"` and `"null"` (`Http.Text`); `acc + null` is `acc` while
  `acc + undefined` is NaN (`Dashboard.AddCapacity`); and `===` tells them
  apart when the store matches ids.
- A `Partial<Room>` or `Partial<Equipment>` given to `Object.assign` is a
  record of `Option<Field<…>>`: `None` is a key the object does not carry.
- The timestamp formatter that the booking service imports is a function
  parameter `format`, because its code is not part of this model. The
  dashboard's `new Date(...)` is already applied to its input: a start instant
  is an `Option<int>`. `None` stands for an invalid date, which compares false
  with everything. A `null` timestamp is the instant 0, as `new Date(null)` is.
  "Now" is a parameter, read once for the whole filter, whereas the source
  calls `new Date()` once per booking inside the filter callback, so each
  booking is compared with its own, slightly later, instant.

The store keeps value snapshots of the service objects it receives. The
snapshots are equal to the object's fields at the moment the store stores
them.

## Model

| member | source | states |
|---|---|---|
| `Http.Checked` | src/services/Room.ts:45-47 | a transport failure rejects as it is; a status outside 200-299 rejects with the prefix followed by the status; otherwise the body is handed on |
| `Http.Confirmed` | src/services/Room.ts:45-50 | succeeds exactly when the status is ok and the body is readable, and then yields that body; an unreadable body on an ok status rejects with `UnreadableBody` |
| `Http.Decimal` | src/services/Room.ts:46 | the status text is non-empty, all digits, and has no leading zero |
| `Http.DecimalRoundTrip` | src/services/Room.ts:46 | the status can be read back from the decimal text in an error message |
| `Http.Text` | src/services/Booking.ts:82-87 | a string is sent as it is; `undefined` and `null` are sent as the words "undefined" and "null" |
| `Http.ItemUrl` | src/services/Room.ts:59 | the item URL is the base, a slash, then the id as text |
| `Http.ItemUrlInjective` | src/services/Room.ts:59 | string ids give the same URL exactly when they are equal; an `undefined` or `null` id addresses the item named "undefined" or "null" |
| `Http.NumberText` | src/services/Booking.ts:85 | `attendees.toString()` is the decimal text, with a minus sign for negatives |
| `EquipmentService.Equipment.constructor` | src/services/Equipment.ts:1-6 | a new instance has every field undefined |
| `EquipmentService.Equipment.ResetErrors` | src/services/Equipment.ts:10-12 | sets `errors` to the empty object and leaves the entity fields alone |
| `EquipmentService.Equipment.Assign` | src/store.ts:47 | `Object.assign` copies exactly the keys the partial carries, whatever their value |
| `EquipmentService.WholePatch` | src/store.ts:53 | assigning a whole piece of equipment into any instance reproduces it |
| `EquipmentService.Parse` | src/services/Equipment.ts:14-19 | `fromJSON`: id, name and description as the body has them |
| `EquipmentService.CreatePayload` | src/services/Equipment.ts:21-26 | `toCreate()`: name and description |
| `EquipmentService.UpdatePayload` | src/services/Equipment.ts:28-33 | `toUpdate()`: name and description |
| `EquipmentService.Equipment.FromJson` | src/services/Equipment.ts:14-19 | overwrites id, name and description with the JSON's, keeps `errors`, returns the same instance |
| `EquipmentService.PayloadsAgree` | src/services/Equipment.ts:21-33 | `toCreate()` and `toUpdate()` are equal |
| `EquipmentService.PayloadsOmitId` | src/services/Equipment.ts:21-33 | neither payload depends on the id |
| `EquipmentService.RoundTrip` | src/services/Equipment.ts:14-33 | `fromJSON(j).toUpdate()` reproduces j's name and description |
| `EquipmentService.Outcome` | src/services/Equipment.ts:44-49 | a non-ok status rejects with the status-bearing message and parses nothing; success is `fromJSON` of the body |
| `EquipmentService.GetAll` | src/services/Equipment.ts:92-109 | any failure or unusable body gives `[]`; otherwise one parsed equipment per list element, in order |
| `EquipmentService.Equipment.Create` | src/services/Equipment.ts:35-54 | posts the whole instance (id and errors included) to the base URL; on success the fields are the server's, on failure they are unchanged |
| `EquipmentService.Equipment.Update` | src/services/Equipment.ts:56-74 | puts `toUpdate()` to `<base>/<id>`; the fields become the server's on success and are unchanged on failure |
| `EquipmentService.Equipment.Delete` | src/services/Equipment.ts:76-90 | sends DELETE to `<base>/<id>`; succeeds exactly on an ok status and otherwise rejects with the status message |
| `RoomService.Room.constructor` | src/services/Room.ts:3-9 | a new room has undefined fields and no equipment |
| `RoomService.Room.ResetErrors` | src/services/Room.ts:13-15 | sets `errors` to the empty object and leaves the entity fields alone |
| `RoomService.Room.Assign` | src/store.ts:25 | `Object.assign` copies exactly the keys the partial carries, whatever their value |
| `RoomService.WholePatch` | src/store.ts:31 | assigning a whole room into any instance reproduces that room |
| `RoomService.Parse` | src/services/Room.ts:17-23 | `fromJSON`: id, name and capacity as sent, equipment parsed one by one |
| `RoomService.CreatePayload` | src/services/Room.ts:25-31 | `toCreate()`: name, capacity and the equipment ids |
| `RoomService.UpdatePayload` | src/services/Room.ts:33-35 | `toUpdate()` is `toCreate()` |
| `RoomService.Room.FromJson` | src/services/Room.ts:17-23 | the instance's fields become `Parse(j)`; `errors` is kept; the same instance is returned |
| `RoomService.ParseRoom` | src/services/Room.ts:17-23 | copies id, name and capacity; maps each equipment element through the equipment `fromJSON`, with the same length and order; an absent list gives `[]` |
| `RoomService.CreatePayloadFields` | src/services/Room.ts:25-31 | the payload is name, capacity and the ids of the room's equipment, in order |
| `RoomService.PayloadsOmitId` | src/services/Room.ts:25-35 | the payload does not depend on the room id, and `toUpdate()` equals `toCreate()` |
| `RoomService.RoundTrip` | src/services/Room.ts:17-31 | `fromJSON(j).toCreate()` reproduces j's name, capacity and equipment ids |
| `RoomService.Outcome` | src/services/Room.ts:45-50 | a non-ok status rejects with the status-bearing message and parses nothing; success is `fromJSON` of the body |
| `RoomService.ConflictOnCreate` | src/services/Room.ts:45-47 | a 409 on create rejects with "Failed to create room: 409", whatever the body says |
| `RoomService.GetAll` | src/services/Room.ts:93-110 | any failure or a null body gives `[]`; otherwise one parsed room per list element, in order |
| `RoomService.Room.Create` | src/services/Room.ts:37-55 | posts `toCreate()`; on success the fields are the server's, on failure they are unchanged |
| `RoomService.Room.Update` | src/services/Room.ts:57-75 | puts `toUpdate()` to `<base>/<id>`; the fields become the server's on success and are unchanged on failure |
| `RoomService.Room.Delete` | src/services/Room.ts:77-91 | sends DELETE to `<base>/<id>`; succeeds exactly on an ok status and otherwise rejects with the status message |
| `BookingService.Booking.constructor` | src/services/Booking.ts:4-14 | a new booking has every field undefined |
| `BookingService.Booking.ResetErrors` | src/services/Booking.ts:18-20 | sets `errors` to the empty object and leaves the entity fields alone |
| `BookingService.Booking.FromJson` | src/services/Booking.ts:22-32 | the instance's eight fields become `Parse(j, format)`; the same instance is returned |
| `BookingService.Parse` | src/services/Booking.ts:22-32 | `fromJSON`: the eight instance fields a body leaves behind |
| `BookingService.ParseBooking` | src/services/Booking.ts:22-32 | a missing, `null` or empty timestamp becomes `''` and any other is formatted; equipment defaults to `[]`; the room is copied as sent, not parsed; the other fields are copied, `null` kept as `null` |
| `BookingService.CreateBody` | src/services/Booking.ts:48-55 | the create payload, or the error of reading `id` from a missing room |
| `BookingService.CreateBodyFields` | src/services/Booking.ts:48-55 | the payload exists exactly when the room is neither `undefined` nor `null`; its `roomId` is `room.id`; it depends on neither the booking id nor the equipment |
| `BookingService.UpdatePayload` | src/services/Booking.ts:34-44 | `toUpdate()`: every field but the id |
| `BookingService.UpdatePayloadFields` | src/services/Booking.ts:34-44 | `toUpdate()` leaves out the id and carries the full room and the equipment |
| `BookingService.BookingRoundTrip` | src/services/Booking.ts:22-55 | `fromJSON(j).toUpdate()` gives back j's title, attendees, organizer and room, and its equipment with a missing list read as `[]`; a non-empty timestamp comes back as `format(t)`, so it survives only when the formatter leaves it unchanged; the create payload names j's room by its id, and fails without a room |
| `BookingService.CreateErrorMessage` | src/services/Booking.ts:63-65 | the message is the body's non-empty `message`; otherwise, including for an unreadable body, it is "Erreur inconnue (code <status>)" |
| `BookingService.UnknownErrorCarriesStatus` | src/services/Booking.ts:65 | the fallback message holds the status in decimal, and the status can be read back |
| `BookingService.CreateOutcome` | src/services/Booking.ts:46-77 | with no room nothing is sent; a non-ok status rejects with the chosen message; success is `fromJSON` of the body |
| `BookingService.Booking.Create` | src/services/Booking.ts:46-77 | sends the create payload only when there is a room; the fields become the server's on success and are unchanged on failure |
| `BookingService.UpdateForm` | src/services/Booking.ts:81-87 | the six appended fields, or the error of `toString` / `id` read from a missing attendees count or room |
| `BookingService.UpdateFormMatchesCreate` | src/services/Booking.ts:81-87 | the update form has the same six fields as the create payload, in order, each converted as `String(...)` converts it (so `null` becomes "null" and `undefined` becomes "undefined"), with attendees converted by `toString()` |
| `BookingService.UpdateOutcome` | src/services/Booking.ts:79-102 | an unbuildable form rejects before sending; a transport failure rejects with `NetworkError` and an unreadable body on an ok status with `UnreadableBody`; a non-ok status rejects with "HTTP error! Status: <status>"; success is `fromJSON` of the body |
| `BookingService.Booking.Update` | src/services/Booking.ts:79-102 | builds the form one append at a time, each value converted as `String(...)` converts it, and sends it to `<base>/<id>`; nothing is sent when attendees or the room is missing; the fields become the server's on success and are unchanged on failure |
| `BookingService.Booking.Delete` | src/services/Booking.ts:104-116 | sends DELETE to `<base>/<id>`; succeeds exactly on an ok status |
| `BookingService.GetAll` | src/services/Booking.ts:118-133 | any failure, including a body that is not a list, gives `[]`; otherwise one parsed booking per element, in order |
| `AppStore.ReplaceById` | src/store.ts:33-35 | same length; each element is the confirmed entity if its id is `===` the returned id, and is unchanged otherwise |
| `AppStore.ReplaceWithoutMatch` | src/store.ts:33-35 | an update whose id matches nothing leaves the collection unchanged |
| `AppStore.ReplaceIdempotent` | src/store.ts:55-57 | applying the same confirmed update twice is applying it once |
| `AppStore.RemoveById` | src/store.ts:41-43 | keeps exactly the elements whose id is not `===` the deleted one, which may itself be `undefined` or `null` |
| `AppStore.RemoveUndefinedDropsIdless` | src/store.ts:41-43 | deleting with an `undefined` id drops exactly the elements that have no id |
| `AppStore.RemoveKeepsOrder` | src/store.ts:63-65 | the survivors keep their relative order (a subsequence, and deletion distributes over concatenation) |
| `AppStore.RemoveIdempotent` | src/store.ts:41-43 | deleting the same id twice gives the same collection as deleting it once |
| `AppStore.RemoveAbsent` | src/store.ts:63-65 | deleting an id that no element carries changes nothing |
| `AppStore.RemoveMiddle` | src/store.ts:41-43 | deleting the middle one of three rooms leaves the other two, in order |
| `AppStore.Store.constructor` | src/store.ts:7-10 | the three collections start empty |
| `AppStore.Store.FetchRooms` | src/store.ts:11-14 | `rooms` becomes the `getAll` result; equipment and bookings are untouched |
| `AppStore.Store.FetchEquipment` | src/store.ts:15-18 | `equipment` becomes the `getAll` result; rooms and bookings are untouched |
| `AppStore.Store.FetchBookings` | src/store.ts:19-22 | `bookings` becomes the `getAll` result; rooms and equipment are untouched |
| `AppStore.Store.AddRoom` | src/store.ts:23-28 | posts the caller's fields; on success appends the confirmed room at the end; on failure rooms are unchanged; the other collections are untouched |
| `AppStore.Store.UpdateRoom` | src/store.ts:29-36 | on success replaces the rooms whose id is the returned id; on failure rooms are unchanged; the other collections are untouched |
| `AppStore.Store.DeleteRoom` | src/store.ts:37-44 | sends DELETE to `<base>/<id>`, the id as text (so `undefined` for a room without one); on success removes every room with that id; on failure rooms are unchanged; the other collections are untouched |
| `AppStore.Store.AddEquipment` | src/store.ts:45-50 | posts the whole instance; on success appends the confirmed equipment; on failure it is unchanged; the other collections are untouched |
| `AppStore.Store.UpdateEquipment` | src/store.ts:51-58 | on success replaces the equipment whose id is the returned id; on failure it is unchanged; the other collections are untouched |
| `AppStore.Store.DeleteEquipment` | src/store.ts:59-66 | sends DELETE to `<base>/<id>`, the id as text; on success removes every piece of equipment with that id, `undefined` and `null` ids included; on failure it is unchanged; the other collections are untouched |
| `Dashboard.Upcoming` | src/components/Dashboard.tsx:31-33 | holds exactly the bookings whose start is strictly after now, and never more than there are bookings |
| `Dashboard.UpcomingCount` | src/components/Dashboard.tsx:49 | the count shown equals the number of bookings that start after now, counted one by one |
| `Dashboard.UpcomingKeepsOrder` | src/components/Dashboard.tsx:31-33 | the upcoming bookings form an order-preserving subsequence of the bookings |
| `Dashboard.StartingNowExcluded` | src/components/Dashboard.tsx:31-33 | a booking starting exactly now is not upcoming |
| `Dashboard.UpcomingLater` | src/components/Dashboard.tsx:31-33 | filtering at a later instant the bookings upcoming at an earlier one gives the bookings upcoming at the later instant |
| `Dashboard.Reduce` | src/components/Dashboard.tsx:66 | the `reduce`, a left fold of `acc + room.capacity` |
| `Dashboard.TotalCapacity` | src/components/Dashboard.tsx:66 | the fold started at 0 |
| `Dashboard.ReduceIsSum` | src/components/Dashboard.tsx:66 | folding from any start adds the independently defined sum of capacities, a `null` one counting 0, or gives NaN when the start is NaN or a room has no `capacity` property |
| `Dashboard.TotalCapacityIsSum` | src/components/Dashboard.tsx:66 | the `reduce` equals the independently defined sum of capacities, a `null` one counting 0 (0 for no rooms), or NaN when a room has no `capacity` property |
| `Dashboard.NullCapacityIgnored` | src/components/Dashboard.tsx:66 | a room whose capacity is `null` leaves the total unchanged |
| `Dashboard.NullVersusAbsent` | src/components/Dashboard.tsx:66 | a `null` capacity beside a capacity of 10 shows 10; an absent one shows NaN |
| `Dashboard.RoomLabel` | src/components/Dashboard.tsx:83 | shows the room's name, or "Salle inconnue" when the room is missing or `null` or its name is missing, `null` or empty |
| `Dashboard.Summary` | src/components/Dashboard.tsx:49-66 | the three cards: the upcoming count (at most the number of bookings), the length of the rooms list, and the total capacity with `null` capacities counting 0 |

## Left out

- HTTP mechanics are left out: `fetch`, headers, `JSON.stringify`, `response.json()` and `FormData` encoding. A request is a verb, a URL and a body value. A reply is a status and an optional parsed body.
- `console.log` / `console.error` are left out. This includes the logging by which `getAll` reports a failure it swallows.
- The timestamp formatter imported by the booking service is not part of this model. It is a parameter.
- The dashboard's `Date` parsing and `toLocaleString` formatting, and its `useState` / `useEffect` loading state, are left out. All React rendering, routing, authentication, modal and form state are left out too: this covers `RoomList.tsx`, `EquipmentList.tsx`, `BookingForm.tsx`, `BookingCalendar.tsx`, `App.tsx` and `main.tsx`.
- Numbers are unbounded integers. Capacities, attendee counts and statuses do not model floating point. The one exception is the NaN that an absent capacity causes in the dashboard's sum.
- Async interleaving is left out. Two in-flight actions on the same collection (last response wins) are not modelled. Each action runs to completion.
- The store holds value snapshots of the service objects, not the objects themselves. A later in-place change to a stored object, through aliasing, is not reflected.
- The booking service's `create()`, `update()` and `delete()` have no store action in the source, and so none here. The booking shape with `roomId` in `src/types.ts` is used only for the store's type, and the service's `room` shape is used throughout.
- `BookingService.CreateErrorMessage`: a literal `null` error body makes `errorBody.message` throw a `TypeError` in the source. The model treats it like `{}` and gives the generic message.
- Server payloads whose fields have a different JSON type than the one modelled are not modelled. Examples are a numeric `startTime` or a string `capacity`.
- A failed room create rejects with "Failed to create room: <status>" (`RoomService.ConflictOnCreate`). The room service never reads the body of a rejected reply, so no server message reaches its caller; only the booking create reads its `message`.
- `AppStore.Store.AddRoom` and `AppStore.Store.UpdateRoom` take the partial as the declared `Partial<Room>`, whose `equipment` is a list of equipment objects. The room form in `src/components/RoomList.tsx` (lines 13, 23-31 and 165-170), their only caller, passes a list of equipment id strings instead. `Object.assign` copies that list into the room, `toCreate()` then reads `.id` from each string and gets `undefined`, and the source posts one `null` per selected id. The model cannot hold an id list in a room and so does not capture that payload.
- A partial that sets a room's `equipment` key to `undefined` or `null` is not modelled: a room's equipment is always a list, as the initialiser and `fromJSON` leave it.
