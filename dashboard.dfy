/** The figures the dashboard derives from the rooms and bookings it
    fetched: the upcoming bookings, the number of rooms, the total capacity,
    and the room name shown under each upcoming booking. */
module Dashboard {
  import opened Wrappers
  import opened Json
  import Seqs

  const UnknownRoom := "Salle inconnue"

  /** A booking as the dashboard receives it, with its timestamps already
      read as the instants `new Date(...)` makes of them: `None` is an
      invalid date (an absent or unparsable timestamp), which compares
      false with everything; a `null` timestamp reads as the instant 0. */
  datatype Reservation = Reservation(
    id: Field<string>,
    title: Field<string>,
    start: Option<int>,
    end: Option<int>,
    room: Field<RoomJson>)

  /** `new Date(booking.startTime) > new Date()` */
  predicate IsUpcoming(b: Reservation, now: int) {
    b.start.Some? && b.start.value > now
  }

  /** `bookings.filter(...)`: exactly the bookings that start strictly after `now`. */
  function Upcoming(bookings: seq<Reservation>, now: int): (r: seq<Reservation>)
    ensures |r| <= |bookings|
    ensures forall b :: b in r <==> b in bookings && b.start.Some? && b.start.value > now
  {
    Seqs.Filter(bookings, (b: Reservation) => IsUpcoming(b, now))
  }

  /** The number of bookings that start after `now`, counted one by one. */
  function CountUpcoming(bookings: seq<Reservation>, now: int): nat {
    if bookings == [] then 0
    else (if IsUpcoming(bookings[0], now) then 1 else 0) + CountUpcoming(bookings[1..], now)
  }

  /** The upcoming card shows how many bookings start after `now`. */
  lemma {:induction false} UpcomingCount(bookings: seq<Reservation>, now: int)
    ensures |Upcoming(bookings, now)| == CountUpcoming(bookings, now)
    decreases |bookings|
  {
    if bookings != [] {
      UpcomingCount(bookings[1..], now);
    }
  }

  /** The upcoming bookings are listed in the order they were fetched. */
  lemma UpcomingKeepsOrder(bookings: seq<Reservation>, now: int)
    ensures Seqs.IsSubsequence(Upcoming(bookings, now), bookings)
  {
    Seqs.FilterIsSubsequence(bookings, (b: Reservation) => IsUpcoming(b, now));
  }

  /** A booking that starts exactly now is not upcoming. */
  lemma StartingNowExcluded(bookings: seq<Reservation>, now: int, b: Reservation)
    requires b.start == Some(now)
    ensures b !in Upcoming(bookings, now)
  {
  }

  /** Filtering at a later instant what was upcoming at an earlier one gives
      what is upcoming at the later instant. */
  lemma {:induction false} UpcomingLater(bookings: seq<Reservation>, earlier: int, later: int)
    requires earlier <= later
    ensures Upcoming(Upcoming(bookings, earlier), later) == Upcoming(bookings, later)
    decreases |bookings|
  {
    if bookings != [] {
      UpcomingLater(bookings[1..], earlier, later);
      var b := bookings[0];
      var rest := Upcoming(bookings[1..], earlier);
      if IsUpcoming(b, earlier) {
        assert Upcoming(bookings, earlier) == [b] + rest;
        assert ([b] + rest)[0] == b && ([b] + rest)[1..] == rest;
      }
    }
  }

  /** `acc + room.capacity` on numbers, with `None` for NaN: an absent
      capacity (`undefined`) makes the sum NaN, a `null` one converts to 0
      and adds nothing, and NaN stays NaN. */
  function AddCapacity(acc: Option<int>, room: RoomJson): Option<int> {
    match room.capacity
    case Undefined => None
    case Null => acc
    case Defined(c) => if acc.Some? then Some(acc.value + c) else None
  }

  /** `rooms.reduce((acc, room) => acc + room.capacity, acc)`, left to right. */
  function Reduce(rooms: seq<RoomJson>, acc: Option<int>): Option<int>
    decreases |rooms|
  {
    if rooms == [] then acc else Reduce(rooms[1..], AddCapacity(acc, rooms[0]))
  }

  /** The figure on the capacity card. */
  function TotalCapacity(rooms: seq<RoomJson>): Option<int> {
    Reduce(rooms, Some(0))
  }

  /** No room lacks the `capacity` property; a `null` one is allowed. */
  predicate AllHaveCapacity(rooms: seq<RoomJson>) {
    forall i :: 0 <= i < |rooms| ==> !rooms[i].capacity.Undefined?
  }

  /** The number a capacity contributes to a sum: `null` counts as 0. */
  function CapacityOf(room: RoomJson): int {
    if room.capacity.Defined? then room.capacity.value else 0
  }

  /** The sum of the capacities, defined independently of the fold. */
  function CapacitySum(rooms: seq<RoomJson>): int {
    if rooms == [] then 0 else CapacityOf(rooms[0]) + CapacitySum(rooms[1..])
  }

  lemma {:induction false} ReduceIsSum(rooms: seq<RoomJson>, acc: Option<int>)
    ensures Reduce(rooms, acc) ==
              if acc.Some? && AllHaveCapacity(rooms) then Some(acc.value + CapacitySum(rooms)) else None
    decreases |rooms|
  {
    if rooms != [] {
      ReduceIsSum(rooms[1..], AddCapacity(acc, rooms[0]));
      assert AllHaveCapacity(rooms) <==> !rooms[0].capacity.Undefined? && AllHaveCapacity(rooms[1..]) by {
        if !rooms[0].capacity.Undefined? && AllHaveCapacity(rooms[1..]) {
          forall i | 0 <= i < |rooms| ensures !rooms[i].capacity.Undefined? {
            if i > 0 { assert rooms[i] == rooms[1..][i - 1]; }
          }
        }
      }
    }
  }

  /** The capacity card shows the sum of the room capacities, a `null` one
      counting as 0 (and 0 for no rooms), or NaN as soon as one room has no
      `capacity` property. */
  lemma TotalCapacityIsSum(rooms: seq<RoomJson>)
    ensures TotalCapacity(rooms) == if AllHaveCapacity(rooms) then Some(CapacitySum(rooms)) else None
    ensures rooms == [] ==> TotalCapacity(rooms) == Some(0)
  {
    ReduceIsSum(rooms, Some(0));
  }

  /** A room whose capacity is `null` leaves the total as it was. */
  lemma NullCapacityIgnored(r: RoomJson, rooms: seq<RoomJson>)
    requires r.capacity.Null?
    ensures TotalCapacity([r] + rooms) == TotalCapacity(rooms)
  {
    assert ([r] + rooms)[0] == r && ([r] + rooms)[1..] == rooms;
  }

  /** A `null` capacity next to a capacity of 10 shows 10, while an absent
      one shows NaN. */
  lemma NullVersusAbsent(name: Field<string>)
    ensures TotalCapacity([RoomJson(Undefined, name, Null, Undefined),
                           RoomJson(Undefined, name, Defined(10), Undefined)]) == Some(10)
    ensures TotalCapacity([RoomJson(Undefined, name, Undefined, Undefined),
                           RoomJson(Undefined, name, Defined(10), Undefined)]) == None
  {
    var ten := RoomJson(Undefined, name, Defined(10), Undefined);
    assert [ten][1..] == [];
    assert Reduce([ten], Some(0)) == Reduce([], Some(10));
    assert Reduce([ten], None) == Reduce([], None);
    var withNull := [RoomJson(Undefined, name, Null, Undefined), ten];
    assert withNull[1..] == [ten];
    assert Reduce(withNull, Some(0)) == Reduce([ten], Some(0));
    var withAbsent := [RoomJson(Undefined, name, Undefined, Undefined), ten];
    assert withAbsent[1..] == [ten];
    assert Reduce(withAbsent, Some(0)) == Reduce([ten], None);
  }

  /** The room line under a booking: the room's name, or the fallback when
      the room is missing or `null` or its name is missing, `null` or empty. */
  function RoomLabel(b: Reservation): (shown: string)
    ensures b.room.Defined? && b.room.value.name.Defined? && b.room.value.name.value != "" ==>
              shown == b.room.value.name.value
    ensures !b.room.Defined? || !b.room.value.name.Defined? || b.room.value.name == Defined("") ==>
              shown == UnknownRoom
    ensures shown != ""
  {
    if b.room.Defined? && b.room.value.name.Defined? && b.room.value.name.value != ""
    then b.room.value.name.value
    else UnknownRoom
  }

  /** The three cards at the top of the dashboard. */
  datatype Cards = Cards(upcoming: nat, rooms: nat, capacity: Option<int>)

  function Summary(rooms: seq<RoomJson>, bookings: seq<Reservation>, now: int): (c: Cards)
    ensures c.upcoming == CountUpcoming(bookings, now) && c.upcoming <= |bookings|
    ensures c.rooms == |rooms|
    ensures c.capacity == if AllHaveCapacity(rooms) then Some(CapacitySum(rooms)) else None
  {
    UpcomingCount(bookings, now);
    TotalCapacityIsSum(rooms);
    Cards(|Upcoming(bookings, now)|, |rooms|, TotalCapacity(rooms))
  }
}
