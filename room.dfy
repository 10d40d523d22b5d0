/** The room service object: a room with the equipment it holds, its field
    mapping from and to JSON and its four calls to `/rooms`. */
module RoomService {
  import opened Wrappers
  import opened Http
  import opened Json
  import Seqs
  import EquipmentService

  type EquipmentValue = EquipmentService.EquipmentValue

  const BaseUrl := "http://localhost:8080/rooms"
  const CreatePrefix := "Failed to create room: "
  const UpdatePrefix := "Failed to update room: "
  const DeletePrefix := "Failed to delete room: "
  const FetchPrefix := "Failed to fetch rooms: "

  /** A snapshot of the entity fields of a room instance. */
  datatype RoomValue = RoomValue(
    id: Field<string>,
    name: Field<string>,
    capacity: Field<int>,
    equipment: seq<EquipmentValue>)

  /** The fields of a new instance: only `equipment` has an initialiser. */
  const Blank := RoomValue(Undefined, Undefined, Undefined, [])

  /** A `Partial<Room>`: `None` is a key the object does not carry,
      `Some(v)` a key it carries with the value `v`. */
  datatype RoomPatch = RoomPatch(
    id: Option<Field<string>>,
    name: Option<Field<string>>,
    capacity: Option<Field<int>>,
    equipment: Option<seq<EquipmentValue>>)

  /** The `{name, capacity, equipment}` write payload; equipment is sent by id. */
  datatype RoomWrite = RoomWrite(
    name: Field<string>,
    capacity: Field<int>,
    equipment: seq<Field<string>>)

  /** The values `fromJSON` leaves in the instance's fields: each listed
      piece of equipment goes through the equipment `fromJSON`, and a missing
      list becomes the empty one. */
  function Parse(j: RoomJson): RoomValue {
    RoomValue(j.id, j.name, j.capacity, EquipmentService.ParseAll(j.equipment.GetOr([])))
  }

  function ParseAll(js: seq<RoomJson>): seq<RoomValue> {
    Seqs.Map(js, Parse)
  }

  /** `toCreate()` */
  function CreatePayload(v: RoomValue): RoomWrite {
    RoomWrite(v.name, v.capacity, Seqs.Map(v.equipment, (e: EquipmentValue) => e.id))
  }

  /** `toUpdate()` returns `this.toCreate()`. */
  function UpdatePayload(v: RoomValue): RoomWrite {
    CreatePayload(v)
  }

  /** `Object.assign(instance, patch)`: only the keys the patch carries are
      copied, whatever their value. */
  function Patched(v: RoomValue, patch: RoomPatch): RoomValue {
    RoomValue(
      if patch.id.Some? then patch.id.value else v.id,
      if patch.name.Some? then patch.name.value else v.name,
      if patch.capacity.Some? then patch.capacity.value else v.capacity,
      if patch.equipment.Some? then patch.equipment.value else v.equipment)
  }

  /** A `Room` passed whole carries every key, so assigning it to a new
      instance reproduces it, and assigning it to any instance overwrites
      every field. */
  function WholePatch(v: RoomValue): (p: RoomPatch)
    ensures Patched(Blank, p) == v
    ensures forall w :: Patched(w, p) == v
  {
    RoomPatch(Some(v.id), Some(v.name), Some(v.capacity), Some(v.equipment))
  }

  /** `fromJSON` copies id, name and capacity and maps the equipment list
      element by element, in order; an absent list gives no equipment. */
  lemma ParseRoom(j: RoomJson)
    ensures Parse(j).id == j.id && Parse(j).name == j.name && Parse(j).capacity == j.capacity
    ensures !j.equipment.Defined? ==> Parse(j).equipment == []
    ensures j.equipment.Defined? ==>
              |Parse(j).equipment| == |j.equipment.value| &&
              forall i :: 0 <= i < |j.equipment.value| ==>
                Parse(j).equipment[i] == EquipmentService.Parse(j.equipment.value[i])
  {
  }

  /** `toCreate()` is exactly name, capacity and the ids of the equipment, in order. */
  lemma CreatePayloadFields(v: RoomValue)
    ensures CreatePayload(v).name == v.name && CreatePayload(v).capacity == v.capacity
    ensures |CreatePayload(v).equipment| == |v.equipment|
    ensures forall i :: 0 <= i < |v.equipment| ==> CreatePayload(v).equipment[i] == v.equipment[i].id
  {
  }

  /** Neither payload depends on the room's own id, and they are equal. */
  lemma PayloadsOmitId(v: RoomValue, otherId: Field<string>)
    ensures CreatePayload(v.(id := otherId)) == CreatePayload(v)
    ensures UpdatePayload(v) == CreatePayload(v)
  {
  }

  /** `fromJSON(j).toCreate()` gives back the name, the capacity and the ids
      of the equipment of `j`. */
  lemma RoundTrip(j: RoomJson)
    ensures CreatePayload(Parse(j)).name == j.name
    ensures CreatePayload(Parse(j)).capacity == j.capacity
    ensures |CreatePayload(Parse(j)).equipment| == |j.equipment.GetOr([])|
    ensures forall i :: 0 <= i < |j.equipment.GetOr([])| ==>
              CreatePayload(Parse(j)).equipment[i] == j.equipment.GetOr([])[i].id
  {
    var js := j.equipment.GetOr([]);
    var eq := Parse(j).equipment;
    assert |eq| == |js|;
    forall i | 0 <= i < |js|
      ensures CreatePayload(Parse(j)).equipment[i] == js[i].id
    {
      assert eq[i] == EquipmentService.Parse(js[i]);
    }
  }

  /** The result of `create()` / `update()` for a reply: the status check,
      then `fromJSON` of the body, and nothing parsed on a failure. */
  function Outcome(reply: Reply<RoomJson>, prefix: string): (r: Result<RoomValue, Error>)
    ensures r.Ok? <==> reply.Response? && IsOk(reply.status) && reply.body.Some?
    ensures r.Ok? ==> r.value == Parse(reply.body.value)
    ensures reply.Unreachable? ==> r == Err(NetworkError)
    ensures reply.Response? && !IsOk(reply.status) ==>
              r == Err(Rejected(prefix + Decimal(reply.status)))
  {
    match Confirmed(reply, prefix)
    case Ok(j) => Ok(Parse(j))
    case Err(e) => Err(e)
  }

  /** A create the server refuses with 409 rejects with the status text
      only: a `message` the server puts in the body is not read. */
  lemma ConflictOnCreate(body: Option<RoomJson>)
    ensures Outcome(Response(409, body), CreatePrefix) == Err(Rejected("Failed to create room: 409"))
  {
    assert Digit(4) == '4' && Digit(0) == '0' && Digit(9) == '9';
    assert Decimal(409) == Decimal(40) + ['9'] == Decimal(4) + ['0'] + ['9'] == "409";
    assert CreatePrefix + "409" == "Failed to create room: 409";
  }

  /** `Room.getAll()`: every failure, and a `null` body, becomes the empty list. */
  function GetAll(reply: Reply<seq<RoomJson>>): (r: seq<RoomValue>)
    ensures !(reply.Response? && IsOk(reply.status) && reply.body.Some?) ==> r == []
    ensures reply.Response? && IsOk(reply.status) && reply.body.Some? ==>
              |r| == |reply.body.value| &&
              forall i :: 0 <= i < |r| ==> r[i] == Parse(reply.body.value[i])
  {
    match Confirmed(reply, FetchPrefix)
    case Ok(list) => ParseAll(list)
    case Err(_) => []
  }

  class Room {
    var id: Field<string>
    var name: Field<string>
    var capacity: Field<int>
    var equipment: seq<EquipmentValue>
    var errors: Option<ErrorBag>

    constructor()
      ensures Value() == Blank && errors == None
    {
      id, name, capacity, equipment, errors := Undefined, Undefined, Undefined, [], None;
    }

    function Value(): RoomValue
      reads this
    {
      RoomValue(id, name, capacity, equipment)
    }

    method ResetErrors()
      modifies this
      ensures errors == Some(map[]) && Value() == old(Value())
    {
      errors := Some(map[]);
    }

    method Assign(patch: RoomPatch)
      modifies this
      ensures Value() == Patched(old(Value()), patch) && errors == old(errors)
    {
      if patch.id.Some? { id := patch.id.value; }
      if patch.name.Some? { name := patch.name.value; }
      if patch.capacity.Some? { capacity := patch.capacity.value; }
      if patch.equipment.Some? { equipment := patch.equipment.value; }
    }

    /** Overwrites the four entity fields and returns the same instance. */
    method FromJson(j: RoomJson) returns (self: Room)
      modifies this
      ensures self == this
      ensures Value() == Parse(j) && errors == old(errors)
    {
      id := j.id;
      name := j.name;
      capacity := j.capacity;
      equipment := EquipmentService.ParseAll(j.equipment.GetOr([]));
      self := this;
    }

    /** POST `toCreate()`, then take the server's fields. */
    method Create(reply: Reply<RoomJson>) returns (sent: Request<RoomWrite>, res: Result<RoomValue, Error>)
      modifies this
      ensures sent == Request(POST, BaseUrl, Some(CreatePayload(old(Value()))))
      ensures res == Outcome(reply, CreatePrefix)
      ensures res.Ok? ==> Value() == res.value
      ensures res.Err? ==> Value() == old(Value())
      ensures errors == old(errors)
    {
      sent := Request(POST, BaseUrl, Some(CreatePayload(Value())));
      match Confirmed(reply, CreatePrefix)
      case Err(e) =>
        res := Err(e);
      case Ok(j) =>
        var self := FromJson(j);
        res := Ok(self.Value());
    }

    /** PUT `toUpdate()` to `<base>/<id>`, then take the server's fields. */
    method Update(reply: Reply<RoomJson>) returns (sent: Request<RoomWrite>, res: Result<RoomValue, Error>)
      modifies this
      ensures sent == Request(PUT, ItemUrl(BaseUrl, old(id)), Some(UpdatePayload(old(Value()))))
      ensures res == Outcome(reply, UpdatePrefix)
      ensures res.Ok? ==> Value() == res.value
      ensures res.Err? ==> Value() == old(Value())
      ensures errors == old(errors)
    {
      sent := Request(PUT, ItemUrl(BaseUrl, id), Some(UpdatePayload(Value())));
      match Confirmed(reply, UpdatePrefix)
      case Err(e) =>
        res := Err(e);
      case Ok(j) =>
        var self := FromJson(j);
        res := Ok(self.Value());
    }

    /** DELETE `<base>/<id>`; the body of the reply is never read. */
    method Delete(reply: Reply<()>) returns (sent: Request<()>, res: Result<(), Error>)
      ensures sent == Request(DELETE, ItemUrl(BaseUrl, id), None)
      ensures res.Ok? <==> reply.Response? && IsOk(reply.status)
      ensures reply.Unreachable? ==> res == Err(NetworkError)
      ensures reply.Response? && !IsOk(reply.status) ==>
                res == Err(Rejected(DeletePrefix + Decimal(reply.status)))
    {
      sent := Request(DELETE, ItemUrl(BaseUrl, id), None);
      var checked := Checked(reply, DeletePrefix);
      if checked.Ok? {
        res := Ok(());
      } else {
        res := Err(checked.error);
      }
    }
  }
}
