/** The booking service object: a booking with its field mapping from JSON,
    its two write encodings (a JSON payload on create, a form on update),
    the server message it surfaces on a failed create, and its four calls
    to `/bookings`. */
module BookingService {
  import opened Wrappers
  import opened Http
  import opened Json
  import Seqs

  const BaseUrl := "http://localhost:8080/bookings"
  /** The message prefix of a failed update, delete or fetch. */
  const StatusPrefix := "HTTP error! Status: "
  const UnknownPrefix := "Erreur inconnue (code "

  /** A snapshot of the entity fields of a booking instance. `room` is the
      room object exactly as the server sent it. */
  datatype BookingValue = BookingValue(
    id: Field<string>,
    title: Field<string>,
    startTime: Field<string>,
    endTime: Field<string>,
    attendees: Field<int>,
    organizer: Field<string>,
    room: Field<RoomJson>,
    equipment: Field<seq<string>>)

  /** The fields of a new instance: none is set. */
  const Blank := BookingValue(Undefined, Undefined, Undefined, Undefined, Undefined, Undefined, Undefined, Undefined)

  /** The JSON payload `create()` posts. */
  datatype BookingCreate = BookingCreate(
    title: Field<string>,
    startTime: Field<string>,
    endTime: Field<string>,
    attendees: Field<int>,
    organizer: Field<string>,
    roomId: Field<string>)

  /** The record `toUpdate()` returns. */
  datatype BookingUpdate = BookingUpdate(
    title: Field<string>,
    startTime: Field<string>,
    endTime: Field<string>,
    attendees: Field<int>,
    organizer: Field<string>,
    room: Field<RoomJson>,
    equipment: Field<seq<string>>)

  /** One `formData.append(key, value)`. */
  datatype FormField = FormField(key: string, value: string)

  /** A timestamp as `fromJSON` stores it: a missing, `null` or empty one
      becomes `''`, any other goes through the timestamp formatter. */
  function FormatTime(t: Field<string>, format: string -> string): string {
    if t.Defined? && t.value != "" then format(t.value) else ""
  }

  /** The values `fromJSON` leaves in the instance's fields. */
  function Parse(j: BookingJson, format: string -> string): BookingValue {
    BookingValue(
      j.id, j.title,
      Defined(FormatTime(j.startTime, format)), Defined(FormatTime(j.endTime, format)),
      j.attendees, j.organizer, j.room, Defined(j.equipment.GetOr([])))
  }

  function ParseAll(js: seq<BookingJson>, format: string -> string): seq<BookingValue> {
    Seqs.Map(js, (j: BookingJson) => Parse(j, format))
  }

  /** `fromJSON`: both timestamps are always defined afterwards, a missing
      equipment list becomes the empty one, and the room is copied as it
      is, not parsed. */
  lemma ParseBooking(j: BookingJson, format: string -> string)
    ensures var v := Parse(j, format);
      && v.id == j.id && v.title == j.title && v.attendees == j.attendees
      && v.organizer == j.organizer && v.room == j.room
      && (!j.startTime.Defined? || j.startTime == Defined("") ==> v.startTime == Defined(""))
      && (j.startTime.Defined? && j.startTime.value != "" ==> v.startTime == Defined(format(j.startTime.value)))
      && (!j.endTime.Defined? || j.endTime == Defined("") ==> v.endTime == Defined(""))
      && (j.endTime.Defined? && j.endTime.value != "" ==> v.endTime == Defined(format(j.endTime.value)))
      && (!j.equipment.Defined? ==> v.equipment == Defined([]))
      && (j.equipment.Defined? ==> v.equipment == j.equipment)
  {
  }

  /** The `create()` payload; reading `this.room.id` throws when the room
      is `undefined` or `null`. */
  function CreateBody(v: BookingValue): Result<BookingCreate, Error> {
    if !v.room.Defined? then Err(PropertyOfNothing("id"))
    else Ok(BookingCreate(v.title, v.startTime, v.endTime, v.attendees, v.organizer, v.room.value.id))
  }

  /** The create payload names the room by its id and carries neither the
      booking id nor the equipment. */
  lemma CreateBodyFields(v: BookingValue, otherId: Field<string>, otherEquipment: Field<seq<string>>)
    ensures CreateBody(v).Ok? <==> v.room.Defined?
    ensures CreateBody(v).Ok? ==> CreateBody(v).value.roomId == v.room.value.id
    ensures CreateBody(v.(id := otherId, equipment := otherEquipment)) == CreateBody(v)
  {
  }

  /** `toUpdate()` */
  function UpdatePayload(v: BookingValue): BookingUpdate {
    BookingUpdate(v.title, v.startTime, v.endTime, v.attendees, v.organizer, v.room, v.equipment)
  }

  /** `toUpdate()` leaves out the id but keeps the whole room and the equipment. */
  lemma UpdatePayloadFields(v: BookingValue, otherId: Field<string>)
    ensures UpdatePayload(v.(id := otherId)) == UpdatePayload(v)
    ensures UpdatePayload(v).room == v.room && UpdatePayload(v).equipment == v.equipment
  {
  }

  /** `fromJSON(j).toUpdate()` gives back the title, attendees, organizer
      and room of `j`, and its equipment with a missing list read as empty.
      The timestamps come back through the formatter: a non-empty one as
      `format(t)`, so they survive the round trip exactly when the
      formatter leaves them as they are. `fromJSON(j)` then `create()`
      names the room of `j` by its id. */
  lemma BookingRoundTrip(j: BookingJson, format: string -> string)
    ensures var p := UpdatePayload(Parse(j, format));
      && p.title == j.title && p.attendees == j.attendees
      && p.organizer == j.organizer && p.room == j.room
      && p.equipment == Defined(j.equipment.GetOr([]))
      && (j.startTime.Defined? && j.startTime.value != "" ==> p.startTime == Defined(format(j.startTime.value)))
      && (j.endTime.Defined? && j.endTime.value != "" ==> p.endTime == Defined(format(j.endTime.value)))
    ensures (forall t :: format(t) == t) && j.startTime.Defined? && j.startTime.value != "" ==>
              UpdatePayload(Parse(j, format)).startTime == j.startTime
    ensures j.room.Defined? ==>
              CreateBody(Parse(j, format)).Ok? && CreateBody(Parse(j, format)).value.roomId == j.room.value.id
    ensures !j.room.Defined? ==> CreateBody(Parse(j, format)) == Err(PropertyOfNothing("id"))
  {
  }

  /** The message of a failed create: the error body's `message` when it
      is a non-empty string, otherwise the generic text with the status.
      An unreadable error body counts as `{}`. */
  function CreateErrorMessage(status: nat, errorBody: Option<BookingJson>): (m: string)
    ensures errorBody.Some? && errorBody.value.message.Defined? && errorBody.value.message.value != "" ==>
              m == errorBody.value.message.value
    ensures errorBody.None? || !errorBody.value.message.Defined? || errorBody.value.message == Defined("") ==>
              m == UnknownPrefix + Decimal(status) + ")"
  {
    var message := if errorBody.Some? then errorBody.value.message else Undefined;
    if message.Defined? && message.value != "" then message.value
    else UnknownPrefix + Decimal(status) + ")"
  }

  /** The generic message holds the status, and it can be read back. */
  lemma UnknownErrorCarriesStatus(status: nat)
    ensures var m := CreateErrorMessage(status, None);
      && m[..|UnknownPrefix|] == UnknownPrefix
      && m[|m| - 1] == ')'
      && (forall i :: |UnknownPrefix| <= i < |m| - 1 ==> '0' <= m[i] <= '9')
      && DecimalValue(m[|UnknownPrefix|..|m| - 1]) == status
  {
    var m := CreateErrorMessage(status, None);
    assert m[|UnknownPrefix|..|m| - 1] == Decimal(status);
    DecimalRoundTrip(status);
  }

  /** The result of `create()`: no request at all without a room; otherwise
      the status check with the server's message, then `fromJSON`. */
  function CreateOutcome(v: BookingValue, reply: Reply<BookingJson>, format: string -> string): (r: Result<BookingValue, Error>)
    ensures !v.room.Defined? ==> r == Err(PropertyOfNothing("id"))
    ensures v.room.Defined? && reply.Unreachable? ==> r == Err(NetworkError)
    ensures v.room.Defined? && reply.Response? && !IsOk(reply.status) ==>
              r == Err(Rejected(CreateErrorMessage(reply.status, reply.body)))
    ensures r.Ok? <==> v.room.Defined? && reply.Response? && IsOk(reply.status) && reply.body.Some?
    ensures r.Ok? ==> r.value == Parse(reply.body.value, format)
  {
    if !v.room.Defined? then Err(PropertyOfNothing("id"))
    else match reply
      case Unreachable => Err(NetworkError)
      case Response(status, body) =>
        if !IsOk(status) then Err(Rejected(CreateErrorMessage(status, body)))
        else if body.None? then Err(UnreadableBody)
        else Ok(Parse(body.value, format))
  }

  /** The form `update()` sends: six fields appended in order, every value
      turned into text (an `undefined` or `null` one into that word);
      `attendees.toString()` and `room.id` throw when attendees or the room
      are `undefined` or `null`. */
  function UpdateForm(v: BookingValue): Result<seq<FormField>, Error> {
    if !v.attendees.Defined? then Err(PropertyOfNothing("toString"))
    else if !v.room.Defined? then Err(PropertyOfNothing("id"))
    else Ok([FormField("title", Text(v.title)),
             FormField("startTime", Text(v.startTime)),
             FormField("endTime", Text(v.endTime)),
             FormField("attendees", NumberText(v.attendees.value)),
             FormField("organizer", Text(v.organizer)),
             FormField("roomId", Text(v.room.value.id))])
  }

  /** The update form carries the same six fields as the create payload, in
      the same order, each as text, with attendees converted to a string. */
  lemma UpdateFormMatchesCreate(v: BookingValue)
    ensures UpdateForm(v).Ok? <==> CreateBody(v).Ok? && v.attendees.Defined?
    ensures UpdateForm(v).Ok? ==>
      var form, p := UpdateForm(v).value, CreateBody(v).value;
      && |form| == 6
      && (forall i :: 0 <= i < 6 ==> form[i].key == ["title", "startTime", "endTime", "attendees", "organizer", "roomId"][i])
      && form[0].value == Text(p.title)
      && form[1].value == Text(p.startTime)
      && form[2].value == Text(p.endTime)
      && form[3].value == NumberText(p.attendees.value)
      && form[4].value == Text(p.organizer)
      && form[5].value == Text(p.roomId)
  {
  }

  /** The result of `update()`. */
  function UpdateOutcome(v: BookingValue, reply: Reply<BookingJson>, format: string -> string): (r: Result<BookingValue, Error>)
    ensures UpdateForm(v).Err? ==> r == Err(UpdateForm(v).error)
    ensures UpdateForm(v).Ok? && reply.Unreachable? ==> r == Err(NetworkError)
    ensures UpdateForm(v).Ok? && reply.Response? && IsOk(reply.status) && reply.body.None? ==>
              r == Err(UnreadableBody)
    ensures UpdateForm(v).Ok? && reply.Response? && !IsOk(reply.status) ==>
              r == Err(Rejected(StatusPrefix + Decimal(reply.status)))
    ensures r.Ok? <==> UpdateForm(v).Ok? && reply.Response? && IsOk(reply.status) && reply.body.Some?
    ensures r.Ok? ==> r.value == Parse(reply.body.value, format)
  {
    match UpdateForm(v)
    case Err(e) => Err(e)
    case Ok(_) =>
      match Confirmed(reply, StatusPrefix)
      case Ok(j) => Ok(Parse(j, format))
      case Err(e) => Err(e)
  }

  /** `Booking.getAll()`: every failure, including a body that is not a
      list, becomes the empty list. */
  function GetAll(reply: Reply<seq<BookingJson>>, format: string -> string): (r: seq<BookingValue>)
    ensures !(reply.Response? && IsOk(reply.status) && reply.body.Some?) ==> r == []
    ensures reply.Response? && IsOk(reply.status) && reply.body.Some? ==>
              |r| == |reply.body.value| &&
              forall i :: 0 <= i < |r| ==> r[i] == Parse(reply.body.value[i], format)
  {
    match Confirmed(reply, StatusPrefix)
    case Ok(list) => ParseAll(list, format)
    case Err(_) => []
  }

  class Booking {
    var id: Field<string>
    var title: Field<string>
    var startTime: Field<string>
    var endTime: Field<string>
    var attendees: Field<int>
    var organizer: Field<string>
    var room: Field<RoomJson>
    var equipment: Field<seq<string>>
    var errors: Option<ErrorBag>

    constructor()
      ensures Value() == Blank && errors == None
    {
      id, title, startTime, endTime := Undefined, Undefined, Undefined, Undefined;
      attendees, organizer, room, equipment, errors := Undefined, Undefined, Undefined, Undefined, None;
    }

    function Value(): BookingValue
      reads this
    {
      BookingValue(id, title, startTime, endTime, attendees, organizer, room, equipment)
    }

    method ResetErrors()
      modifies this
      ensures errors == Some(map[]) && Value() == old(Value())
    {
      errors := Some(map[]);
    }

    /** Overwrites the eight entity fields and returns the same instance. */
    method FromJson(j: BookingJson, format: string -> string) returns (self: Booking)
      modifies this
      ensures self == this
      ensures Value() == Parse(j, format) && errors == old(errors)
    {
      id := j.id;
      title := j.title;
      startTime := Defined(FormatTime(j.startTime, format));
      endTime := Defined(FormatTime(j.endTime, format));
      attendees := j.attendees;
      organizer := j.organizer;
      room := j.room;
      equipment := Defined(j.equipment.GetOr([]));
      self := this;
    }

    /** POST the create payload; on a failure surface the server's message. */
    method Create(reply: Reply<BookingJson>, format: string -> string)
      returns (sent: Option<Request<BookingCreate>>, res: Result<BookingValue, Error>)
      modifies this
      ensures sent == if !old(room).Defined? then None
                      else Some(Request(POST, BaseUrl, Some(CreateBody(old(Value())).value)))
      ensures res == CreateOutcome(old(Value()), reply, format)
      ensures res.Ok? ==> Value() == res.value
      ensures res.Err? ==> Value() == old(Value())
      ensures errors == old(errors)
    {
      if !room.Defined? {
        sent, res := None, Err(PropertyOfNothing("id"));
        return;
      }
      var payload := BookingCreate(title, startTime, endTime, attendees, organizer, room.value.id);
      sent := Some(Request(POST, BaseUrl, Some(payload)));
      match reply
      case Unreachable =>
        res := Err(NetworkError);
      case Response(status, body) =>
        if !IsOk(status) {
          res := Err(Rejected(CreateErrorMessage(status, body)));
        } else if body.None? {
          res := Err(UnreadableBody);
        } else {
          var self := FromJson(body.value, format);
          res := Ok(self.Value());
        }
    }

    /** PUT a form built one field at a time to `<base>/<id>`. */
    method Update(reply: Reply<BookingJson>, format: string -> string)
      returns (sent: Option<Request<seq<FormField>>>, res: Result<BookingValue, Error>)
      modifies this
      ensures sent == if UpdateForm(old(Value())).Err? then None
                      else Some(Request(PUT, ItemUrl(BaseUrl, old(id)), Some(UpdateForm(old(Value())).value)))
      ensures res == UpdateOutcome(old(Value()), reply, format)
      ensures res.Ok? ==> Value() == res.value
      ensures res.Err? ==> Value() == old(Value())
      ensures errors == old(errors)
    {
      var form: seq<FormField> := [];
      form := form + [FormField("title", Text(title))];
      form := form + [FormField("startTime", Text(startTime))];
      form := form + [FormField("endTime", Text(endTime))];
      if !attendees.Defined? {
        sent, res := None, Err(PropertyOfNothing("toString"));
        return;
      }
      form := form + [FormField("attendees", NumberText(attendees.value))];
      form := form + [FormField("organizer", Text(organizer))];
      if !room.Defined? {
        sent, res := None, Err(PropertyOfNothing("id"));
        return;
      }
      form := form + [FormField("roomId", Text(room.value.id))];
      assert form == UpdateForm(Value()).value;
      sent := Some(Request(PUT, ItemUrl(BaseUrl, id), Some(form)));
      match Confirmed(reply, StatusPrefix)
      case Err(e) =>
        res := Err(e);
      case Ok(j) =>
        var self := FromJson(j, format);
        res := Ok(self.Value());
    }

    /** DELETE `<base>/<id>`; the body of the reply is never read. */
    method Delete(reply: Reply<()>) returns (sent: Request<()>, res: Result<(), Error>)
      ensures sent == Request(DELETE, ItemUrl(BaseUrl, id), None)
      ensures res.Ok? <==> reply.Response? && IsOk(reply.status)
      ensures reply.Unreachable? ==> res == Err(NetworkError)
      ensures reply.Response? && !IsOk(reply.status) ==>
                res == Err(Rejected(StatusPrefix + Decimal(reply.status)))
    {
      sent := Request(DELETE, ItemUrl(BaseUrl, id), None);
      var checked := Checked(reply, StatusPrefix);
      if checked.Ok? {
        res := Ok(());
      } else {
        res := Err(checked.error);
      }
    }
  }
}
