/** The room list of the home screen and the merge that installs the
    latest per-hour schedule into it. */
module App {
  import opened Text

  /** One recorded hour of a room's schedule. */
  datatype Slot = Slot(date: string, time: string, status: string)

  datatype Room = Room(id: int, name: string, price: string, image: string, bookedSlots: seq<Slot>)

  /** The latest schedule of one room. */
  datatype RoomUpdate = RoomUpdate(id: int, bookedSlots: seq<Slot>)

  /** The home screen's initial room list. */
  const InitialRooms: seq<Room> := [
    Room(1, "Studio Latihan A", "150.000",
         "https://images.unsplash.com/photo-1514320291840-2e0a9bf2a9ae?w=800", [])
  ]

  /** The schedule the home screen installs when it mounts. */
  const DataTerbaru: seq<RoomUpdate> := [
    RoomUpdate(1, [Slot("2026-01-01", "10:00", "booked"), Slot("2026-01-01", "08:00", "used")])
  ]

  /** `updates.find(d => d.id === id)`: the first update for `id`. */
  function FindUpdate(updates: seq<RoomUpdate>, id: int): (r: Option<RoomUpdate>)
    ensures r.None? <==> forall k :: 0 <= k < |updates| ==> updates[k].id != id
    ensures r.Some? ==> exists k :: 0 <= k < |updates| && updates[k] == r.value && updates[k].id == id
                                   && forall j :: 0 <= j < k ==> updates[j].id != id
  {
    if updates == [] then None
    else if updates[0].id == id then Some(updates[0])
    else
      FindUpdate(updates[1..], id)
  }

  /** The merge of one room: its update's `bookedSlots`, or the room itself. */
  function MergeRoom(room: Room, updates: seq<RoomUpdate>): Room
  {
    match FindUpdate(updates, room.id)
    case Some(u) => room.(bookedSlots := u.bookedSlots)
    case None => room
  }

  /** `prevRooms.map(...)` of `updateJadwal`, room by room. */
  function UpdateJadwal(rooms: seq<Room>, updates: seq<RoomUpdate>): (r: seq<Room>)
    ensures |r| == |rooms|
    ensures forall i :: 0 <= i < |rooms| ==> r[i] == MergeRoom(rooms[i], updates)
  {
    if rooms == [] then []
    else
      var rest := UpdateJadwal(rooms[1..], updates);
      assert forall i :: 1 <= i < |rooms| ==> rooms[i] == rooms[1..][i - 1];
      [MergeRoom(rooms[0], updates)] + rest
  }

  /** Every room whose id has an update takes the first such update's
      `bookedSlots`; every other room, and every other field, is unchanged. */
  lemma UpdateJadwalMeaning(rooms: seq<Room>, updates: seq<RoomUpdate>)
    ensures var r := UpdateJadwal(rooms, updates);
            |r| == |rooms|
            && (forall i :: 0 <= i < |rooms| ==> r[i] == rooms[i].(bookedSlots := r[i].bookedSlots))
            && (forall i :: 0 <= i < |rooms| && (forall k :: 0 <= k < |updates| ==> updates[k].id != rooms[i].id)
                            ==> r[i] == rooms[i])
            && (forall i, k :: 0 <= i < |rooms| && 0 <= k < |updates| && updates[k].id == rooms[i].id
                               && (forall j :: 0 <= j < k ==> updates[j].id != rooms[i].id)
                               ==> r[i].bookedSlots == updates[k].bookedSlots)
  {
  }

  /** Only one index can be the first update for an id. */
  lemma FirstUpdateUnique(updates: seq<RoomUpdate>, id: int, k: nat)
    requires k < |updates| && updates[k].id == id
    requires forall j :: 0 <= j < k ==> updates[j].id != id
    ensures FindUpdate(updates, id) == Some(updates[k])
  {
  }

  /** Merging the same updates twice changes nothing more. */
  lemma UpdateJadwalIdempotent(rooms: seq<Room>, updates: seq<RoomUpdate>)
    ensures UpdateJadwal(UpdateJadwal(rooms, updates), updates) == UpdateJadwal(rooms, updates)
  {
  }
}
