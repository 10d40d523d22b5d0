/** The JSON bodies the server sends, as records of fields that JavaScript
    reads with `json?.f`. A body that is `null` itself reads as the record
    with every field `Undefined`, since `json?.f` is `undefined` for every
    `f`. */
module Json {

  /** A property as JavaScript sees it: absent (`undefined`), `null`, or a
      value. The two empty forms behave alike under `||`, `?:` and `&&`, but
      not under `+`, `String(...)` or `===`. */
  datatype Field<+T> = Undefined | Null | Defined(value: T) {
    /** `x || d` for a value whose only falsy forms are `undefined` and `null`. */
    function GetOr(default: T): (r: T)
      ensures Defined? ==> r == value
      ensures !Defined? ==> r == default
    {
      match this
      case Defined(v) => v
      case _ => default
    }
  }

  /** The contents of an instance's `errors` object. */
  type ErrorBag = map<string, string>

  datatype EquipmentJson = EquipmentJson(
    id: Field<string>,
    name: Field<string>,
    description: Field<string>)

  datatype RoomJson = RoomJson(
    id: Field<string>,
    name: Field<string>,
    capacity: Field<int>,
    equipment: Field<seq<EquipmentJson>>)

  /** A booking body; `message` is the field an error body carries. */
  datatype BookingJson = BookingJson(
    id: Field<string>,
    title: Field<string>,
    startTime: Field<string>,
    endTime: Field<string>,
    attendees: Field<int>,
    organizer: Field<string>,
    room: Field<RoomJson>,
    equipment: Field<seq<string>>,
    message: Field<string>)
}
