/** The booking dialog opened from a room card: fixed two-hour blocks that
    start at a handful of fixed times, a block check against the room's
    per-hour schedule, and the guarded submission of a new reservation. */
module BookingModal {
  import opened Text
  import opened Store
  import opened App

  /** Every block lasts two hours. */
  const DurasiSewa: nat := 2

  /** The start times the dialog offers. */
  const TimeSlotsMulai: seq<string> := ["10:00", "13:00", "16:00", "19:00", "22:00"]

  /** Same-day bookings are refused from this hour of the day on. */
  const CutoffHour: nat := 12

  /** The database error code of a uniqueness violation. */
  const UniqueViolation := "23505"

  const TakenWarning := "Slot ini sudah dibooking orang lain. Silakan pilih slot lain yang tersedia."
  const MissingWarning := "\U{26A0}\U{FE0F} Mohon lengkapi semua data!"
  /** The cross mark that opens the refusal messages. */
  const CrossMark := "\U{274C} "
  const LateWarning := CrossMark + "Booking hari ini hanya sampai pukul 12:00 siang."
  const RaceWarning := "Maaf, slot ini baru saja dibooking orang lain. Silakan pilih slot lain."
  const DuplicateWarning := CrossMark + "Maaf, slot ini baru saja dibooking orang lain!"
  const GagalBooking := "Gagal booking"
  const FailurePrefix := GagalBooking + ": "
  const RetryWarning := GagalBooking + ". Coba lagi sebentar."

  // ---------------------------------------------------------------------
  // End time and stored range

  /** `jamSelesai`: empty while no start is chosen, otherwise the start hour
      plus two as an "HH:00" label ("NaN:00" when the start does not parse). */
  function JamSelesai(jamMulai: string): (r: string)
    ensures r == "" <==> jamMulai == ""
    ensures jamMulai != "" && ParseHour(jamMulai).Some? ==>
              ParseHour(r) == Some(ParseHour(jamMulai).value + DurasiSewa)
    ensures jamMulai != "" && ParseHour(jamMulai).None? ==> r == "NaN:00"
  {
    if jamMulai == "" then ""
    else
      var r := Label(Shift(ParseHour(jamMulai), DurasiSewa));
      if ParseHour(jamMulai).Some? then
        var e := ParseHour(jamMulai).value + DurasiSewa;
        ParseHourLabel(e, "");
        assert HourLabel(e) + "" == HourLabel(e);
        Pad2Digits(e);
        r
      else r
  }

  /** `jamUntukDatabase`: the "start - end" range stored with a reservation,
      or "" while no start is chosen. */
  function JamUntukDatabase(jamMulai: string): (r: string)
    ensures r == "" <==> jamMulai == ""
    ensures jamMulai != "" ==> |r| > |jamMulai| && r[..|jamMulai|] == jamMulai
  {
    if jamMulai != "" && JamSelesai(jamMulai) != "" then jamMulai + " - " + JamSelesai(jamMulai) else ""
  }

  /** For a start label, the stored range starts with that label, and what
      follows " - " parses to the hour two hours later. */
  lemma RangeOfLabel(h: nat)
    ensures JamUntukDatabase(HourLabel(h)) == HourLabel(h) + " - " + HourLabel(h + DurasiSewa)
    ensures ParseHour(JamUntukDatabase(HourLabel(h))[|HourLabel(h) + " - "|..]) == Some(h + DurasiSewa)
  {
    ParseHourLabel(h, "");
    assert HourLabel(h) + "" == HourLabel(h);
    Pad2Digits(h);
    var r := JamUntukDatabase(HourLabel(h));
    assert r[|HourLabel(h) + " - "|..] == HourLabel(h + DurasiSewa) + "";
    ParseHourLabel(h + DurasiSewa, "");
  }

  // ---------------------------------------------------------------------
  // Block check

  /** A recorded hour blocks `jamCheck` on `tanggal`: same date, same label,
      and a status that occupies the slot. */
  predicate Blocks(slot: Slot, tanggal: string, jamCheck: string)
  {
    slot.date == tanggal && slot.time == jamCheck && Occupies(slot.status)
  }

  /** `bookedSlots.some(...)` for one hour label. */
  function SlotTaken(slots: seq<Slot>, tanggal: string, jamCheck: string): (r: bool)
    ensures r <==> exists i :: 0 <= i < |slots| && Blocks(slots[i], tanggal, jamCheck)
  {
    if slots == [] then false
    else Blocks(slots[0], tanggal, jamCheck) || SlotTaken(slots[1..], tanggal, jamCheck)
  }

  /** The label of the k-th hour of the block that starts at `jamMulai`. */
  function HourOfBlock(jamMulai: string, k: nat): string
  {
    Label(Shift(ParseHour(jamMulai), k))
  }

  /** The block starting at `jamMulai` is taken on `tanggal`: both are
      chosen, and one of its hours is blocked by a recorded slot. */
  ghost predicate BlockTaken(slots: seq<Slot>, tanggal: string, jamMulai: string)
  {
    tanggal != "" && jamMulai != ""
    && exists k, i :: 0 <= k < DurasiSewa && 0 <= i < |slots| && Blocks(slots[i], tanggal, HourOfBlock(jamMulai, k))
  }

  /** For a start label, a block is taken exactly when a recorded occupying
      slot of that date sits at one of the hours [start, start + 2). */
  lemma BlockTakenIffHourInside(slots: seq<Slot>, tanggal: string, s: nat)
    ensures BlockTaken(slots, tanggal, HourLabel(s)) <==>
              tanggal != "" && exists i, h: nat :: 0 <= i < |slots| && s <= h < s + DurasiSewa
                                                   && slots[i].date == tanggal && Occupies(slots[i].status)
                                                   && slots[i].time == HourLabel(h)
  {
    ParseHourLabel(s, "");
    assert HourLabel(s) + "" == HourLabel(s);
    Pad2Digits(s);
    assert forall k :: 0 <= k < DurasiSewa ==> HourOfBlock(HourLabel(s), k) == HourLabel(s + k);
    if BlockTaken(slots, tanggal, HourLabel(s)) {
      var k, i :| 0 <= k < DurasiSewa && 0 <= i < |slots| && Blocks(slots[i], tanggal, HourOfBlock(HourLabel(s), k));
      assert slots[i].time == HourLabel(s + k);
    }
    if tanggal != "" && exists i, h: nat :: 0 <= i < |slots| && s <= h < s + DurasiSewa
                                           && slots[i].date == tanggal && Occupies(slots[i].status)
                                           && slots[i].time == HourLabel(h) {
      var i, h: nat :| 0 <= i < |slots| && s <= h < s + DurasiSewa
                       && slots[i].date == tanggal && Occupies(slots[i].status) && slots[i].time == HourLabel(h);
      assert Blocks(slots[i], tanggal, HourOfBlock(HourLabel(s), h - s));
    }
  }

  /** One blocked hour makes the whole block taken. */
  lemma HourTakenBlocks(slots: seq<Slot>, tanggal: string, jamMulai: string, k: nat)
    requires tanggal != "" && jamMulai != "" && k < DurasiSewa
    requires SlotTaken(slots, tanggal, HourOfBlock(jamMulai, k))
    ensures BlockTaken(slots, tanggal, jamMulai)
  {
    var i :| 0 <= i < |slots| && Blocks(slots[i], tanggal, HourOfBlock(jamMulai, k));
  }

  /** A block none of whose hours is blocked is free. */
  lemma NoHourTakenFrees(slots: seq<Slot>, tanggal: string, jamMulai: string)
    requires forall k :: 0 <= k < DurasiSewa ==> !SlotTaken(slots, tanggal, HourOfBlock(jamMulai, k))
    ensures !BlockTaken(slots, tanggal, jamMulai)
  {
    forall k, i | 0 <= k < DurasiSewa && 0 <= i < |slots|
      ensures !Blocks(slots[i], tanggal, HourOfBlock(jamMulai, k))
    {
      assert !SlotTaken(slots, tanggal, HourOfBlock(jamMulai, k));
    }
  }

  /** Recording a slot whose status does not occupy it, such as "used",
      never changes whether any block is taken. */
  lemma NonOccupyingSlotNeverBlocks(slots: seq<Slot>, extra: Slot, tanggal: string, jamMulai: string)
    requires !Occupies(extra.status)
    ensures BlockTaken(slots + [extra], tanggal, jamMulai) == BlockTaken(slots, tanggal, jamMulai)
  {
    var all := slots + [extra];
    if BlockTaken(all, tanggal, jamMulai) {
      var k, i :| 0 <= k < DurasiSewa && 0 <= i < |all| && Blocks(all[i], tanggal, HourOfBlock(jamMulai, k));
      assert i < |slots| && slots[i] == all[i];
    }
    if BlockTaken(slots, tanggal, jamMulai) {
      var k, i :| 0 <= k < DurasiSewa && 0 <= i < |slots| && Blocks(slots[i], tanggal, HourOfBlock(jamMulai, k));
      assert all[i] == slots[i];
    }
  }

  /** The hours of the fixed start times. */
  const FixedStartHours: seq<nat> := [10, 13, 16, 19, 22]

  /** The fixed start times are the labels of those hours, which lie at
      least three hours apart, so two fixed blocks never share an hour. */
  lemma TimeSlotsAreLabels()
    ensures |TimeSlotsMulai| == |FixedStartHours|
    ensures forall j :: 0 <= j < |TimeSlotsMulai| ==> TimeSlotsMulai[j] == HourLabel(FixedStartHours[j])
    ensures forall a, b :: 0 <= a < b < |FixedStartHours| ==> FixedStartHours[a] + 3 <= FixedStartHours[b]
  {
    HourLabelShape(10);
    HourLabelShape(13);
    HourLabelShape(16);
    HourLabelShape(19);
    HourLabelShape(22);
  }

  /** Recording an hour of one block never changes whether a block that
      shares no hour with it is taken. */
  lemma SeparateBlocksUnaffected(slots: seq<Slot>, tanggal: string, sa: nat, sb: nat, extra: Slot, k: nat)
    requires sa + DurasiSewa <= sb || sb + DurasiSewa <= sa
    requires k < DurasiSewa && extra.time == HourLabel(sa + k)
    ensures BlockTaken(slots + [extra], tanggal, HourLabel(sb)) == BlockTaken(slots, tanggal, HourLabel(sb))
  {
    var all := slots + [extra];
    BlockTakenIffHourInside(all, tanggal, sb);
    BlockTakenIffHourInside(slots, tanggal, sb);
    if BlockTaken(all, tanggal, HourLabel(sb)) {
      var i, h: nat :| 0 <= i < |all| && sb <= h < sb + DurasiSewa
                       && all[i].date == tanggal && Occupies(all[i].status) && all[i].time == HourLabel(h);
      if i == |slots| {
        HourLabelInjective(h, sa + k);
      }
      assert slots[i] == all[i];
    }
    if BlockTaken(slots, tanggal, HourLabel(sb)) {
      var i, h: nat :| 0 <= i < |slots| && sb <= h < sb + DurasiSewa
                       && slots[i].date == tanggal && Occupies(slots[i].status) && slots[i].time == HourLabel(h);
      assert all[i] == slots[i];
    }
  }

  // ---------------------------------------------------------------------
  // Submission

  /** The row `handleWhatsapp` inserts: trimmed name and number, the stored
      range, status pending and no duration column. */
  function ModalBooking(nama: string, whatsapp: string, tanggal: string, jamMulai: string, roomId: int)
    : (r: BookingRecord)
    ensures r.status == Pending && r.durasiSewa.None? && r.roomId == roomId && r.tanggal == tanggal
    ensures r.nama == Trim(nama) && r.whatsapp == Trim(whatsapp) && r.jam == JamUntukDatabase(jamMulai)
  {
    BookingRecord(Trim(nama), Trim(whatsapp), tanggal, JamUntukDatabase(jamMulai), Pending, roomId, None)
  }

  /** The warning an insert leaves: none on success, its own message for a
      uniqueness violation, the store's message for any other error, and a
      retry message when the insert throws. */
  function InsertWarning(o: InsertOutcome): (w: Option<string>)
    ensures w.None? <==> o == InsertOk
    ensures o.InsertError? && o.code == UniqueViolation ==> w == Some(DuplicateWarning)
    ensures o.InsertError? && o.code != UniqueViolation ==> w == Some(FailurePrefix + o.message)
    ensures o.InsertThrew? ==> w == Some(RetryWarning)
  {
    match o
    case InsertOk => None
    case InsertError(code, message) =>
      if code == UniqueViolation then Some(DuplicateWarning) else Some(FailurePrefix + message)
    case InsertThrew => Some(RetryWarning)
  }

  /** The three failure messages can be told apart whatever the store reports. */
  lemma FailureMessagesDistinct(message: string)
    ensures DuplicateWarning != FailurePrefix + message
    ensures RetryWarning != FailurePrefix + message
    ensures DuplicateWarning != RetryWarning
  {
    assert DuplicateWarning[0] == '\U{274C}';
    assert (FailurePrefix + message)[0] == 'G';
    assert RetryWarning[0] == 'G';
    assert RetryWarning[|GagalBooking|] == '.';
    assert (FailurePrefix + message)[|GagalBooking|] == ':';
  }

  /** The dialog's state for one room. */
  class Modal {
    const room: Room
    var nama: string
    var whatsapp: string
    var tanggal: string
    var jamMulai: string
    var warning: string

    constructor (room: Room)
      ensures this.room == room
      ensures nama == "" && whatsapp == "" && tanggal == "" && jamMulai == "" && warning == ""
    {
      this.room := room;
      nama, whatsapp, tanggal, jamMulai, warning := "", "", "", "", "";
    }

    /** Some required field is still empty. */
    predicate Missing()
      reads this
    {
      nama == "" || whatsapp == "" || tanggal == "" || jamMulai == ""
    }

    /** The block starting at `jam` is taken on the chosen date. */
    ghost predicate Taken(jam: string)
      reads this
    {
      BlockTaken(room.bookedSlots, tanggal, jam)
    }

    /** `isBlockTaken`: checks the hours of the block one by one and stops
        at the first one that is blocked. */
    method IsBlockTaken(jam: string) returns (taken: bool)
      ensures taken <==> Taken(jam)
    {
      if tanggal == "" || jam == "" {
        return false;
      }
      var startHour := ParseHour(jam);
      for h: nat := 0 to DurasiSewa
        invariant forall k :: 0 <= k < h ==> !SlotTaken(room.bookedSlots, tanggal, HourOfBlock(jam, k))
      {
        var jamCheck := Label(Shift(startHour, h));
        if SlotTaken(room.bookedSlots, tanggal, jamCheck) {
          HourTakenBlocks(room.bookedSlots, tanggal, jam, h);
          return true;
        }
      }
      NoHourTakenFrees(room.bookedSlots, tanggal, jam);
      return false;
    }

    /** Choosing a date clears the chosen start and the warning. */
    method SetTanggal(t: string)
      modifies this`tanggal, this`jamMulai, this`warning
      ensures tanggal == t && jamMulai == "" && warning == ""
    {
      tanggal, jamMulai, warning := t, "", "";
    }

    /** `handleJamClick`: a taken block only sets the warning; any other
        start is chosen and the warning cleared. */
    method HandleJamClick(jam: string)
      modifies this`jamMulai, this`warning
      ensures Taken(jam) ==> jamMulai == old(jamMulai) && warning == TakenWarning
      ensures !Taken(jam) ==> jamMulai == jam && warning == ""
    {
      var taken := IsBlockTaken(jam);
      if taken {
        warning := TakenWarning;
        return;
      }
      jamMulai, warning := jam, "";
    }

    /** `handleWhatsapp`: the guards run in order (a missing field, a
        same-day booking from the cut-off hour on, a taken block) and each
        stops before anything is sent; otherwise the row is sent and the
        notification opens only when the insert succeeds. */
    method HandleWhatsapp(todayIso: string, nowHour: nat, insert: InsertOutcome)
      returns (sent: Option<BookingRecord>, notified: bool)
      modifies this`warning
      ensures Missing() ==> sent.None? && !notified && warning == MissingWarning
      ensures !Missing() && tanggal == todayIso && nowHour >= CutoffHour ==>
                sent.None? && !notified && warning == LateWarning
      ensures !Missing() && !(tanggal == todayIso && nowHour >= CutoffHour) && Taken(jamMulai) ==>
                sent.None? && !notified && warning == RaceWarning
      ensures !Missing() && !(tanggal == todayIso && nowHour >= CutoffHour) && !Taken(jamMulai) ==>
                sent == Some(ModalBooking(nama, whatsapp, tanggal, jamMulai, room.id))
                && (notified <==> insert == InsertOk)
                && warning == (if insert == InsertOk then old(warning) else InsertWarning(insert).value)
    {
      if nama == "" || whatsapp == "" || tanggal == "" || jamMulai == "" {
        warning := MissingWarning;
        return None, false;
      }
      if tanggal == todayIso && nowHour >= CutoffHour {
        warning := LateWarning;
        return None, false;
      }
      var taken := IsBlockTaken(jamMulai);
      if taken {
        warning := RaceWarning;
        return None, false;
      }
      sent := Some(ModalBooking(nama, whatsapp, tanggal, jamMulai, room.id));
      var w := InsertWarning(insert);
      if w.Some? {
        warning := w.value;
        return sent, false;
      }
      notified := true;
    }
  }
}
