/** How the screens agree on the data they share: rows written by the
    room modal or the booking page as the other screens read them back, and
    the schedule the home screen installs as the modal checks it. */
module Consistency {
  import opened Text
  import opened Store
  import App
  import BookingPage
  import BookingModal
  import AdminWangsa

  /** A stored row as the admin screen selects it. */
  function AdminRow(rec: BookingRecord, id: int, createdAt: string): (b: AdminWangsa.Booking)
    ensures b.id == id && b.createdAt == createdAt
    ensures b.nama == rec.nama && b.whatsapp == rec.whatsapp && b.tanggal == rec.tanggal && b.jam == rec.jam
    ensures b.status == rec.status && b.roomId == rec.roomId && b.durasiSewa == rec.durasiSewa
  {
    AdminWangsa.Booking(id, rec.nama, rec.whatsapp, rec.tanggal, rec.jam, rec.status, createdAt, rec.roomId, rec.durasiSewa)
  }

  /** A reservation made in the room modal reads back on the booking page
      as its own start with the two-hour default duration. */
  lemma ModalRowReadByPage(nama: string, whatsapp: string, tanggal: string, h: nat, roomId: int)
    ensures BookingPage.ParseRow(BookingPage.Selected(BookingModal.ModalBooking(nama, whatsapp, tanggal, HourLabel(h), roomId)))
            == BookingPage.BookedSlot(HourLabel(h), BookingModal.DurasiSewa)
  {
    BookingModal.RangeOfLabel(h);
    RangeStartRoundTrip(h, HourLabel(h + BookingModal.DurasiSewa));
  }

  /** Once read back, a reservation made in the room modal keeps the
      booking page from offering any start that overlaps its two hours. */
  lemma ModalRowBlocksPage(nama: string, whatsapp: string, tanggal: string, h: nat, roomId: int,
                           booked: seq<BookingPage.BookedSlot>, h': nat, durasi': nat, todayStr: string, nowHour: nat)
    requires BookingPage.Overlaps(h', durasi', h, BookingModal.DurasiSewa)
    ensures !BookingPage.Offered(h', durasi', tanggal,
              booked + [BookingPage.ParseRow(BookingPage.Selected(
                          BookingModal.ModalBooking(nama, whatsapp, tanggal, HourLabel(h), roomId)))],
              todayStr, nowHour)
  {
    ModalRowReadByPage(nama, whatsapp, tanggal, h, roomId);
    var all := booked + [BookingPage.BookedSlot(HourLabel(h), BookingModal.DurasiSewa)];
    ParseHourLabel(h, "");
    assert HourLabel(h) + "" == HourLabel(h);
    assert BookingPage.SlotOverlaps(h', durasi', all[|booked|]);
  }

  /** The end the admin screen shows for a row whose range starts with
      the label of `h`: that hour plus the row's displayed duration. */
  lemma AdminEndOfLabelRow(b: AdminWangsa.Booking, settings: AdminWangsa.Settings, h: nat, rest: string)
    requires b.jam == HourLabel(h) + rest
    ensures AdminWangsa.GetJamSelesai(b.jam, AdminWangsa.DisplayDuration(b, settings))
            == HourLabel(h + AdminWangsa.DisplayDuration(b, settings))
  {
    AdminWangsa.EndOfStoredRange(h, rest, AdminWangsa.DisplayDuration(b, settings));
  }

  /** The page stores the label of start plus duration as the end. */
  lemma PageStoredEnd(h: nat, durasi: nat)
    ensures BookingPage.JamSelesaiDb(HourLabel(h), durasi) == HourLabel(h + durasi)
  {
    ParseHourLabel(h, "");
    assert HourLabel(h) + "" == HourLabel(h);
  }

  /** The end the admin screen shows for a stored row whose range is
      "start - end" with start the label of `h`. */
  lemma AdminEndOfRecord(rec: BookingRecord, id: int, createdAt: string, settings: AdminWangsa.Settings,
                         h: nat, end: string)
    requires rec.jam == HourLabel(h) + " - " + end
    ensures AdminWangsa.GetJamSelesai(AdminRow(rec, id, createdAt).jam,
                                      AdminWangsa.DisplayDuration(AdminRow(rec, id, createdAt), settings))
            == HourLabel(h + AdminWangsa.DisplayDuration(AdminRow(rec, id, createdAt), settings))
  {
    var b := AdminRow(rec, id, createdAt);
    assert b.jam == HourLabel(h) + (" - " + end);
    AdminEndOfLabelRow(b, settings, h, " - " + end);
  }

  /** For a row the booking page stored, the admin screen shows the end
      hour the page stored. */
  lemma AdminShowsPageEnd(nama: string, whatsapp: string, tanggal: string, h: nat, durasi: nat, roomId: int,
                          id: int, createdAt: string, settings: AdminWangsa.Settings)
    requires durasi != 0
    ensures var rec := BookingPage.NewBooking(nama, whatsapp, tanggal, HourLabel(h), durasi, roomId);
            var b := AdminRow(rec, id, createdAt);
            AdminWangsa.GetJamSelesai(b.jam, AdminWangsa.DisplayDuration(b, settings))
            == BookingPage.JamSelesaiDb(HourLabel(h), durasi)
  {
    var rec := BookingPage.NewBooking(nama, whatsapp, tanggal, HourLabel(h), durasi, roomId);
    var end := BookingPage.JamSelesaiDb(HourLabel(h), durasi);
    assert rec.jam == HourLabel(h) + " - " + end && rec.durasiSewa == Some(durasi);
    AdminEndOfRecord(rec, id, createdAt, settings, h, end);
    PageStoredEnd(h, durasi);
  }

  /** A row from the room modal has no duration, so the admin screen adds
      the settings' duration: it shows the end the modal stored exactly when
      that duration falls back to two hours. */
  lemma AdminShowsModalEndIffDefault(nama: string, whatsapp: string, tanggal: string, h: nat, roomId: int,
                                     id: int, createdAt: string, settings: AdminWangsa.Settings)
    ensures var rec := BookingModal.ModalBooking(nama, whatsapp, tanggal, HourLabel(h), roomId);
            var b := AdminRow(rec, id, createdAt);
            (AdminWangsa.GetJamSelesai(b.jam, AdminWangsa.DisplayDuration(b, settings))
               == HourLabel(h + BookingModal.DurasiSewa))
            <==> AdminWangsa.DisplayDuration(b, settings) == BookingModal.DurasiSewa
  {
    var rec := BookingModal.ModalBooking(nama, whatsapp, tanggal, HourLabel(h), roomId);
    ModalRange(nama, whatsapp, tanggal, h, roomId);
    AdminEndOfRecord(rec, id, createdAt, settings, h, HourLabel(h + BookingModal.DurasiSewa));
    HourLabelsAgree(h, AdminWangsa.DisplayDuration(AdminRow(rec, id, createdAt), settings), BookingModal.DurasiSewa);
  }

  /** The range the room modal stores for the label of `h`. */
  lemma ModalRange(nama: string, whatsapp: string, tanggal: string, h: nat, roomId: int)
    ensures BookingModal.ModalBooking(nama, whatsapp, tanggal, HourLabel(h), roomId).jam
            == HourLabel(h) + " - " + HourLabel(h + BookingModal.DurasiSewa)
  {
    BookingModal.RangeOfLabel(h);
  }

  /** Two hours after the same start have the same label only when they are equal. */
  lemma HourLabelsAgree(h: nat, d: nat, e: nat)
    ensures HourLabel(h + d) == HourLabel(h + e) <==> d == e
  {
    if HourLabel(h + d) == HourLabel(h + e) {
      HourLabelInjective(h + d, h + e);
    }
  }

  /** The schedule the home screen installs gives room 1 the update's slots. */
  lemma InstalledSlots()
    ensures |App.UpdateJadwal(App.InitialRooms, App.DataTerbaru)| == 1
    ensures App.UpdateJadwal(App.InitialRooms, App.DataTerbaru)[0].bookedSlots == App.DataTerbaru[0].bookedSlots
  {
    App.FirstUpdateUnique(App.DataTerbaru, 1, 0);
  }

  /** After the home screen installs its schedule, the modal for room 1
      sees on 2026-01-01 exactly the blocks starting at 09:00 and 10:00
      taken: both contain the booked 10:00 hour, while the "used" 08:00
      hour blocks nothing. */
  lemma {:induction false} InstalledScheduleBlocks(s: nat)
    ensures BookingModal.BlockTaken(App.UpdateJadwal(App.InitialRooms, App.DataTerbaru)[0].bookedSlots,
                                    "2026-01-01", HourLabel(s))
            <==> s == 9 || s == 10
  {
    InstalledSlots();
    var slots := App.DataTerbaru[0].bookedSlots;
    BookingModal.BlockTakenIffHourInside(slots, "2026-01-01", s);
    HourLabelShape(10);
    assert slots[0].time == HourLabel(10);
    if BookingModal.BlockTaken(slots, "2026-01-01", HourLabel(s)) {
      var i, h: nat :| 0 <= i < |slots| && s <= h < s + BookingModal.DurasiSewa
                       && slots[i].date == "2026-01-01" && Occupies(slots[i].status) && slots[i].time == HourLabel(h);
      assert i == 0;
      HourLabelInjective(h, 10);
    }
    if s == 9 || s == 10 {
      assert 0 <= 0 < |slots| && s <= 10 < s + BookingModal.DurasiSewa && slots[0].date == "2026-01-01"
             && Occupies(slots[0].status) && slots[0].time == HourLabel(10);
    }
  }
}
