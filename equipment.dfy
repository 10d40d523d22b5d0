/** The equipment service object: a piece of equipment with its field
    mapping from and to JSON and its four calls to `/equipment`. */
module EquipmentService {
  import opened Wrappers
  import opened Http
  import opened Json
  import Seqs

  const BaseUrl := "http://localhost:8080/equipment"
  const CreatePrefix := "Failed to create equipment: "
  const UpdatePrefix := "Failed to update equipment: "
  const DeletePrefix := "Failed to delete equipment: "
  const FetchPrefix := "Failed to fetch equipment: "

  /** A snapshot of the entity fields of an equipment instance. */
  datatype EquipmentValue = EquipmentValue(
    id: Field<string>,
    name: Field<string>,
    description: Field<string>)

  /** The fields of a new instance: none is set. */
  const Blank := EquipmentValue(Undefined, Undefined, Undefined)

  /** A `Partial<Equipment>`: `None` is a key the object does not carry,
      `Some(v)` a key it carries with the value `v`. */
  datatype EquipmentPatch = EquipmentPatch(
    id: Option<Field<string>>,
    name: Option<Field<string>>,
    description: Option<Field<string>>)

  /** The `{name, description}` write payload. */
  datatype EquipmentWrite = EquipmentWrite(name: Field<string>, description: Field<string>)

  /** `JSON.stringify(this)`: every own field of the instance, `errors` included. */
  datatype EquipmentBody = EquipmentBody(
    id: Field<string>,
    name: Field<string>,
    description: Field<string>,
    errors: Option<ErrorBag>)

  /** The values `fromJSON` leaves in the instance's fields. */
  function Parse(j: EquipmentJson): EquipmentValue {
    EquipmentValue(j.id, j.name, j.description)
  }

  function ParseAll(js: seq<EquipmentJson>): seq<EquipmentValue> {
    Seqs.Map(js, Parse)
  }

  /** `toCreate()` */
  function CreatePayload(v: EquipmentValue): EquipmentWrite {
    EquipmentWrite(v.name, v.description)
  }

  /** `toUpdate()`, written out separately in the source. */
  function UpdatePayload(v: EquipmentValue): EquipmentWrite {
    EquipmentWrite(v.name, v.description)
  }

  /** `Object.assign(instance, patch)`: only the keys the patch carries are
      copied, whatever their value, `undefined` included. */
  function Patched(v: EquipmentValue, patch: EquipmentPatch): EquipmentValue {
    EquipmentValue(
      if patch.id.Some? then patch.id.value else v.id,
      if patch.name.Some? then patch.name.value else v.name,
      if patch.description.Some? then patch.description.value else v.description)
  }

  /** An `Equipment` passed whole carries every key, so assigning it to a
      new instance reproduces it, and assigning it to any instance
      overwrites every field. */
  function WholePatch(v: EquipmentValue): (p: EquipmentPatch)
    ensures Patched(Blank, p) == v
    ensures forall w :: Patched(w, p) == v
  {
    EquipmentPatch(Some(v.id), Some(v.name), Some(v.description))
  }

  lemma PayloadsAgree(v: EquipmentValue)
    ensures CreatePayload(v) == UpdatePayload(v)
  {
  }

  /** Neither payload depends on the id. */
  lemma PayloadsOmitId(v: EquipmentValue, otherId: Field<string>)
    ensures CreatePayload(v.(id := otherId)) == CreatePayload(v)
    ensures UpdatePayload(v.(id := otherId)) == UpdatePayload(v)
  {
  }

  /** `fromJSON(j).toUpdate()` gives back the name and description of `j`. */
  lemma RoundTrip(j: EquipmentJson)
    ensures UpdatePayload(Parse(j)) == EquipmentWrite(j.name, j.description)
    ensures CreatePayload(Parse(j)) == UpdatePayload(Parse(j))
  {
  }

  /** The result of `create()` / `update()` for a reply: the status check,
      then `fromJSON` of the body, and nothing parsed on a failure. */
  function Outcome(reply: Reply<EquipmentJson>, prefix: string): (r: Result<EquipmentValue, Error>)
    ensures r.Ok? <==> reply.Response? && IsOk(reply.status) && reply.body.Some?
    ensures r.Ok? ==> r.value == Parse(reply.body.value)
    ensures reply.Unreachable? ==> r == Err(NetworkError)
    ensures reply.Response? && !IsOk(reply.status) ==>
              r == Err(Rejected(prefix + Decimal(reply.status)))
  {
    match Confirmed(reply, prefix)
    case Ok(j) => Ok(Parse(j))
    case Err(e) => Err(e)
  }

  /** `Equipment.getAll()`: every failure becomes the empty list. */
  function GetAll(reply: Reply<seq<EquipmentJson>>): (r: seq<EquipmentValue>)
    ensures !(reply.Response? && IsOk(reply.status) && reply.body.Some?) ==> r == []
    ensures reply.Response? && IsOk(reply.status) && reply.body.Some? ==>
              |r| == |reply.body.value| &&
              forall i :: 0 <= i < |r| ==> r[i] == Parse(reply.body.value[i])
  {
    match Confirmed(reply, FetchPrefix)
    case Ok(list) => ParseAll(list)
    case Err(_) => []
  }

  class Equipment {
    var id: Field<string>
    var name: Field<string>
    var description: Field<string>
    var errors: Option<ErrorBag>

    constructor()
      ensures Value() == Blank && errors == None
    {
      id, name, description, errors := Undefined, Undefined, Undefined, None;
    }

    function Value(): EquipmentValue
      reads this
    {
      EquipmentValue(id, name, description)
    }

    /** What `JSON.stringify(this)` serialises. */
    function Whole(): EquipmentBody
      reads this
    {
      EquipmentBody(id, name, description, errors)
    }

    method ResetErrors()
      modifies this
      ensures errors == Some(map[]) && Value() == old(Value())
    {
      errors := Some(map[]);
    }

    method Assign(patch: EquipmentPatch)
      modifies this
      ensures Value() == Patched(old(Value()), patch) && errors == old(errors)
    {
      if patch.id.Some? { id := patch.id.value; }
      if patch.name.Some? { name := patch.name.value; }
      if patch.description.Some? { description := patch.description.value; }
    }

    /** Overwrites the three entity fields and returns the same instance. */
    method FromJson(j: EquipmentJson) returns (self: Equipment)
      modifies this
      ensures self == this
      ensures Value() == Parse(j) && errors == old(errors)
    {
      id := j.id;
      name := j.name;
      description := j.description;
      self := this;
    }

    /** POST the whole instance (not `toCreate()`), then take the server's fields. */
    method Create(reply: Reply<EquipmentJson>) returns (sent: Request<EquipmentBody>, res: Result<EquipmentValue, Error>)
      modifies this
      ensures sent == Request(POST, BaseUrl, Some(old(Whole())))
      ensures res == Outcome(reply, CreatePrefix)
      ensures res.Ok? ==> Value() == res.value
      ensures res.Err? ==> Value() == old(Value())
      ensures errors == old(errors)
    {
      sent := Request(POST, BaseUrl, Some(Whole()));
      match Confirmed(reply, CreatePrefix)
      case Err(e) =>
        res := Err(e);
      case Ok(j) =>
        var self := FromJson(j);
        res := Ok(self.Value());
    }

    /** PUT `toUpdate()` to `<base>/<id>`, then take the server's fields. */
    method Update(reply: Reply<EquipmentJson>) returns (sent: Request<EquipmentWrite>, res: Result<EquipmentValue, Error>)
      modifies this
      ensures sent == Request(PUT, ItemUrl(BaseUrl, old(id)), Some(UpdatePayload(old(Value()))))
      ensures res == Outcome(reply, UpdatePrefix)
      ensures res.Ok? ==> Value() == res.value
      ensures res.Err? ==> Value() == old(Value())
      ensures errors == old(errors)
    {
      sent := Request(PUT, ItemUrl(BaseUrl, id), Some(UpdatePayload(Value())));
      match Confirmed(reply, UpdatePrefix)
      case Err(e) =>
        res := Err(e);
      case Ok(j) =>
        var self := FromJson(j);
        res := Ok(self.Value());
    }

    /** DELETE `<base>/<id>`; the body of the reply is never read. */
    method Delete(reply: Reply<()>) returns (sent: Request<()>, res: Result<(), Error>)
      ensures sent == Request(DELETE, ItemUrl(BaseUrl, id), None)
      ensures res.Ok? <==> reply.Response? && IsOk(reply.status)
      ensures reply.Unreachable? ==> res == Err(NetworkError)
      ensures reply.Response? && !IsOk(reply.status) ==>
                res == Err(Rejected(DeletePrefix + Decimal(reply.status)))
    {
      sent := Request(DELETE, ItemUrl(BaseUrl, id), None);
      var checked := Checked(reply, DeletePrefix);
      if checked.Ok? {
        res := Ok(());
      } else {
        res := Err(checked.error);
      }
    }
  }
}
