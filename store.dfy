/** The client-side store: the three collections the views read, and the
    actions that change one of them only after the server has confirmed. */
module AppStore {
  import opened Wrappers
  import opened Http
  import opened Json
  import Seqs
  import EquipmentService
  import RoomService
  import BookingService

  type EquipmentValue = EquipmentService.EquipmentValue
  type RoomValue = RoomService.RoomValue
  type BookingValue = BookingService.BookingValue

  function RoomId(r: RoomValue): Field<string> {
    r.id
  }

  function EquipmentId(e: EquipmentValue): Field<string> {
    e.id
  }

  /** `s.map(x => x.id === updated.id ? updated : x)`. Ids are compared as
      `===` does: two `undefined` ids match, two `null` ids match, and an
      `undefined` id does not match a `null` one. */
  function ReplaceById<T>(s: seq<T>, idOf: T -> Field<string>, updated: T): (r: seq<T>)
    ensures |r| == |s|
    ensures forall i :: 0 <= i < |s| ==>
              r[i] == (if idOf(s[i]) == idOf(updated) then updated else s[i])
  {
    Seqs.Map(s, (x: T) => if idOf(x) == idOf(updated) then updated else x)
  }

  /** `s.filter(x => x.id !== id)`. The id is whatever the caller holds, so
      it may itself be `undefined` or `null`; `!==` then drops every element
      whose id is that same empty value. */
  function RemoveById<T(!new)>(s: seq<T>, idOf: T -> Field<string>, id: Field<string>): (r: seq<T>)
    ensures |r| <= |s|
    ensures forall x :: x in r <==> x in s && idOf(x) != id
  {
    Seqs.Filter(s, (x: T) => idOf(x) != id)
  }

  /** An update whose id matches nothing leaves the collection as it was. */
  lemma ReplaceWithoutMatch<T>(s: seq<T>, idOf: T -> Field<string>, updated: T)
    requires forall i :: 0 <= i < |s| ==> idOf(s[i]) != idOf(updated)
    ensures ReplaceById(s, idOf, updated) == s
  {
    var r := ReplaceById(s, idOf, updated);
    assert forall i :: 0 <= i < |s| ==> r[i] == s[i];
  }

  /** Applying the same confirmed update twice changes nothing more. */
  lemma ReplaceIdempotent<T>(s: seq<T>, idOf: T -> Field<string>, updated: T)
    ensures ReplaceById(ReplaceById(s, idOf, updated), idOf, updated) == ReplaceById(s, idOf, updated)
  {
    var r := ReplaceById(s, idOf, updated);
    var rr := ReplaceById(r, idOf, updated);
    assert forall i :: 0 <= i < |s| ==> rr[i] == r[i];
  }

  /** Deleting keeps the survivors in their relative order: the result is a
      subsequence, and deleting from a concatenation deletes from each part. */
  lemma RemoveKeepsOrder<T(!new)>(a: seq<T>, b: seq<T>, idOf: T -> Field<string>, id: Field<string>)
    ensures Seqs.IsSubsequence(RemoveById(a, idOf, id), a)
    ensures RemoveById(a + b, idOf, id) == RemoveById(a, idOf, id) + RemoveById(b, idOf, id)
  {
    Seqs.FilterIsSubsequence(a, (x: T) => idOf(x) != id);
    Seqs.FilterConcat(a, b, (x: T) => idOf(x) != id);
  }

  /** Deleting the same id twice is deleting it once. */
  lemma RemoveIdempotent<T(!new)>(s: seq<T>, idOf: T -> Field<string>, id: Field<string>)
    ensures RemoveById(RemoveById(s, idOf, id), idOf, id) == RemoveById(s, idOf, id)
  {
    Seqs.FilterIdempotent(s, (x: T) => idOf(x) != id);
  }

  /** Deleting an id no element carries leaves the collection as it was. */
  lemma RemoveAbsent<T(!new)>(s: seq<T>, idOf: T -> Field<string>, id: Field<string>)
    requires forall i :: 0 <= i < |s| ==> idOf(s[i]) != id
    ensures RemoveById(s, idOf, id) == s
  {
    Seqs.FilterAllPass(s, (x: T) => idOf(x) != id);
  }

  /** Deleting with an `undefined` id drops exactly the elements that have
      no id, and keeps those whose id is `null` or a string. */
  lemma RemoveUndefinedDropsIdless<T(!new)>(s: seq<T>, idOf: T -> Field<string>)
    ensures forall i :: 0 <= i < |s| && !idOf(s[i]).Undefined? ==> s[i] in RemoveById(s, idOf, Undefined)
    ensures forall x :: x in RemoveById(s, idOf, Undefined) ==> !idOf(x).Undefined?
  {
  }

  /** Deleting the middle one of three rooms leaves the other two, in order. */
  lemma RemoveMiddle<T(!new)>(a: T, b: T, c: T, idOf: T -> Field<string>, id: Field<string>)
    requires idOf(b) == id && idOf(a) != id && idOf(c) != id
    ensures RemoveById([a, b, c], idOf, id) == [a, c]
  {
    var p := (x: T) => idOf(x) != id;
    assert [a, b, c] == [a] + [b] + [c];
    Seqs.FilterConcat([a] + [b], [c], p);
    Seqs.FilterConcat([a], [b], p);
    assert Seqs.Filter([b], p) == Seqs.Filter([], p);
    assert Seqs.Filter([a], p) == [a] + Seqs.Filter([], p);
    assert Seqs.Filter([c], p) == [c] + Seqs.Filter([], p);
  }

  class Store {
    var rooms: seq<RoomValue>
    var equipment: seq<EquipmentValue>
    var bookings: seq<BookingValue>

    constructor()
      ensures rooms == [] && equipment == [] && bookings == []
    {
      rooms, equipment, bookings := [], [], [];
    }

    /** `set({ rooms })` with whatever `getAll` returned. */
    method FetchRooms(reply: Reply<seq<RoomJson>>)
      modifies this
      ensures rooms == RoomService.GetAll(reply)
      ensures equipment == old(equipment) && bookings == old(bookings)
    {
      rooms := RoomService.GetAll(reply);
    }

    method FetchEquipment(reply: Reply<seq<EquipmentJson>>)
      modifies this
      ensures equipment == EquipmentService.GetAll(reply)
      ensures rooms == old(rooms) && bookings == old(bookings)
    {
      equipment := EquipmentService.GetAll(reply);
    }

    method FetchBookings(reply: Reply<seq<BookingJson>>, format: string -> string)
      modifies this
      ensures bookings == BookingService.GetAll(reply, format)
      ensures rooms == old(rooms) && equipment == old(equipment)
    {
      bookings := BookingService.GetAll(reply, format);
    }

    /** Copy the caller's fields into a fresh room, create it, and append the
        confirmed room. */
    method AddRoom(room: RoomService.RoomPatch, reply: Reply<RoomJson>)
      returns (sent: Request<RoomService.RoomWrite>, res: Result<RoomValue, Error>)
      modifies this
      ensures sent == Request(POST, RoomService.BaseUrl,
                              Some(RoomService.CreatePayload(RoomService.Patched(RoomService.Blank, room))))
      ensures res == RoomService.Outcome(reply, RoomService.CreatePrefix)
      ensures rooms == if res.Ok? then old(rooms) + [res.value] else old(rooms)
      ensures equipment == old(equipment) && bookings == old(bookings)
    {
      var newRoom := new RoomService.Room();
      newRoom.Assign(room);
      sent, res := newRoom.Create(reply);
      if res.Ok? {
        rooms := rooms + [newRoom.Value()];
      }
    }

    /** Update a copy of `room`, then put the confirmed room in place of every
        room whose id is the id the server returned. */
    method UpdateRoom(room: RoomValue, reply: Reply<RoomJson>)
      returns (sent: Request<RoomService.RoomWrite>, res: Result<RoomValue, Error>)
      modifies this
      ensures sent == Request(PUT, ItemUrl(RoomService.BaseUrl, room.id), Some(RoomService.UpdatePayload(room)))
      ensures res == RoomService.Outcome(reply, RoomService.UpdatePrefix)
      ensures rooms == if res.Ok? then ReplaceById(old(rooms), RoomId, res.value) else old(rooms)
      ensures equipment == old(equipment) && bookings == old(bookings)
    {
      var roomService := new RoomService.Room();
      roomService.Assign(RoomService.WholePatch(room));
      sent, res := roomService.Update(reply);
      if res.Ok? {
        rooms := ReplaceById(rooms, RoomId, roomService.Value());
      }
    }

    /** Delete the room with this id on the server, then drop every room
        carrying it. */
    method DeleteRoom(roomId: Field<string>, reply: Reply<()>)
      returns (sent: Request<()>, res: Result<(), Error>)
      modifies this
      ensures sent == Request(DELETE, ItemUrl(RoomService.BaseUrl, roomId), None)
      ensures res.Ok? <==> reply.Response? && IsOk(reply.status)
      ensures rooms == if res.Ok? then RemoveById(old(rooms), RoomId, roomId) else old(rooms)
      ensures equipment == old(equipment) && bookings == old(bookings)
    {
      var roomService := new RoomService.Room();
      roomService.id := roomId;
      sent, res := roomService.Delete(reply);
      if res.Ok? {
        rooms := RemoveById(rooms, RoomId, roomId);
      }
    }

    /** Copy the caller's fields into a fresh instance, create it (the whole
        instance is posted), and append the confirmed equipment. */
    method AddEquipment(item: EquipmentService.EquipmentPatch, reply: Reply<EquipmentJson>)
      returns (sent: Request<EquipmentService.EquipmentBody>, res: Result<EquipmentValue, Error>)
      modifies this
      ensures var v := EquipmentService.Patched(EquipmentService.Blank, item);
              sent == Request(POST, EquipmentService.BaseUrl,
                              Some(EquipmentService.EquipmentBody(v.id, v.name, v.description, None)))
      ensures res == EquipmentService.Outcome(reply, EquipmentService.CreatePrefix)
      ensures equipment == if res.Ok? then old(equipment) + [res.value] else old(equipment)
      ensures rooms == old(rooms) && bookings == old(bookings)
    {
      var newEquipment := new EquipmentService.Equipment();
      newEquipment.Assign(item);
      sent, res := newEquipment.Create(reply);
      if res.Ok? {
        equipment := equipment + [newEquipment.Value()];
      }
    }

    method UpdateEquipment(item: EquipmentValue, reply: Reply<EquipmentJson>)
      returns (sent: Request<EquipmentService.EquipmentWrite>, res: Result<EquipmentValue, Error>)
      modifies this
      ensures sent == Request(PUT, ItemUrl(EquipmentService.BaseUrl, item.id), Some(EquipmentService.UpdatePayload(item)))
      ensures res == EquipmentService.Outcome(reply, EquipmentService.UpdatePrefix)
      ensures equipment == if res.Ok? then ReplaceById(old(equipment), EquipmentId, res.value) else old(equipment)
      ensures rooms == old(rooms) && bookings == old(bookings)
    {
      var equipmentService := new EquipmentService.Equipment();
      equipmentService.Assign(EquipmentService.WholePatch(item));
      sent, res := equipmentService.Update(reply);
      if res.Ok? {
        equipment := ReplaceById(equipment, EquipmentId, equipmentService.Value());
      }
    }

    method DeleteEquipment(equipmentId: Field<string>, reply: Reply<()>)
      returns (sent: Request<()>, res: Result<(), Error>)
      modifies this
      ensures sent == Request(DELETE, ItemUrl(EquipmentService.BaseUrl, equipmentId), None)
      ensures res.Ok? <==> reply.Response? && IsOk(reply.status)
      ensures equipment == if res.Ok? then RemoveById(old(equipment), EquipmentId, equipmentId) else old(equipment)
      ensures rooms == old(rooms) && bookings == old(bookings)
    {
      var equipmentService := new EquipmentService.Equipment();
      equipmentService.id := equipmentId;
      sent, res := equipmentService.Delete(reply);
      if res.Ok? {
        equipment := RemoveById(equipment, EquipmentId, equipmentId);
      }
    }
  }
}
