/** The standalone booking page: start times offered for a chosen date and
    duration between the studio's opening and closing hours, the interval
    conflict check against reservations already stored, and the form that
    submits a new reservation. */
module BookingPage {
  import opened Text
  import opened Store

  const DefaultDurasi: nat := 2
  const DurasiOptions: seq<nat> := [2, 3, 4, 5]
  const IncompleteWarning := "Harap lengkapi semua field!"
  const FailureWarning := "Gagal melakukan booking."

  /** Opening and closing hours as the page holds them ("HH:00" strings). */
  datatype Settings = Settings(jamBuka: string, jamTutup: string)

  const DefaultSettings := Settings("10:00", "00:00")

  /** The two columns the page reads back from a stored reservation. */
  datatype BookingRow = BookingRow(jam: string, durasiSewa: Option<nat>)

  /** A stored reservation as the page works with it: start label and hours. */
  datatype BookedSlot = BookedSlot(jamMulai: string, durasi: nat)

  // ---------------------------------------------------------------------
  // Reading settings and stored reservations

  /** The settings after a fetch: when a row came back, each field falls
      back to its default on its own. */
  function LoadSettings(current: Settings, row: Option<SettingsRow>): (s: Settings)
    ensures row.None? ==> s == current
    ensures row.Some? ==> s.jamBuka != "" && s.jamTutup != ""
    ensures row.Some? && row.value.jamBuka.Some? && row.value.jamBuka.value != "" ==> s.jamBuka == row.value.jamBuka.value
    ensures row.Some? && row.value.jamTutup.Some? && row.value.jamTutup.value != "" ==> s.jamTutup == row.value.jamTutup.value
    ensures row.Some? && (row.value.jamBuka.None? || row.value.jamBuka.value == "") ==> s.jamBuka == "10:00"
    ensures row.Some? && (row.value.jamTutup.None? || row.value.jamTutup.value == "") ==> s.jamTutup == "00:00"
  {
    match row
    case None => current
    case Some(r) => Settings(OrString(r.jamBuka, "10:00"), OrString(r.jamTutup, "00:00"))
  }

  /** A stored reservation read back: the start is the trimmed part of `jam`
      before " - ", and a missing or zero duration counts as 2 hours. */
  function ParseRow(row: BookingRow): (b: BookedSlot)
    ensures b.durasi != 0
    ensures row.durasiSewa.Some? && row.durasiSewa.value != 0 ==> b.durasi == row.durasiSewa.value
    ensures (row.durasiSewa.None? || row.durasiSewa.value == 0) ==> b.durasi == DefaultDurasi
    ensures b.jamMulai == Trim(FieldBefore(row.jam, " - "))
  {
    BookedSlot(Trim(FieldBefore(row.jam, " - ")), OrNat(row.durasiSewa, DefaultDurasi))
  }

  /** A stored range that starts with a label reads back as that label,
      whatever follows " - " and whatever the duration. */
  lemma ParseRowStart(h: nat, rest: string, durasi: Option<nat>)
    ensures ParseRow(BookingRow(HourLabel(h) + " - " + rest, durasi)).jamMulai == HourLabel(h)
  {
    RangeStartRoundTrip(h, rest);
  }

  /** The reservations the page works with for a date: none while no date
      is chosen, otherwise every fetched row read back in order. */
  function BookedFor(tanggal: string, rows: seq<BookingRow>): (r: seq<BookedSlot>)
    ensures tanggal == "" ==> r == []
    ensures tanggal != "" ==> |r| == |rows| && forall i :: 0 <= i < |rows| ==> r[i] == ParseRow(rows[i])
  {
    if tanggal == "" then [] else seq(|rows|, i requires 0 <= i < |rows| => ParseRow(rows[i]))
  }

  // ---------------------------------------------------------------------
  // Conflicts

  /** The half-open overlap rule: [start, start + durasi) meets
      [bStart, bStart + bDurasi). */
  predicate Overlaps(start: int, durasi: int, bStart: int, bDurasi: int)
  {
    start < bStart + bDurasi && start + durasi > bStart
  }

  /** A candidate overlaps a stored reservation whose start parses (a NaN
      start makes every comparison false). */
  predicate SlotOverlaps(start: nat, durasi: nat, b: BookedSlot)
  {
    ParseHour(b.jamMulai).Some? && Overlaps(start, durasi, ParseHour(b.jamMulai).value, b.durasi)
  }

  /** `bookedSlots.some(...)`: the candidate starting at `jamMulai` for
      `durasi` hours overlaps some stored reservation. */
  function IsSlotConflicting(jamMulai: string, durasi: nat, booked: seq<BookedSlot>): (r: bool)
    ensures r <==> ParseHour(jamMulai).Some?
                   && exists i :: 0 <= i < |booked| && SlotOverlaps(ParseHour(jamMulai).value, durasi, booked[i])
  {
    if booked == [] then false
    else
      (ParseHour(jamMulai).Some? && SlotOverlaps(ParseHour(jamMulai).value, durasi, booked[0]))
      || IsSlotConflicting(jamMulai, durasi, booked[1..])
  }

  /** For a well-formed label the check is exactly interval overlap. */
  lemma ConflictIffOverlap(h: nat, durasi: nat, booked: seq<BookedSlot>)
    ensures IsSlotConflicting(HourLabel(h), durasi, booked)
            <==> exists i :: 0 <= i < |booked| && SlotOverlaps(h, durasi, booked[i])
  {
    ParseHourLabel(h, "");
    assert HourLabel(h) + "" == HourLabel(h);
  }

  /** A candidate that ends no later than each reservation starts, or starts
      no earlier than it ends, never conflicts. */
  lemma DisjointNeverConflicts(h: nat, durasi: nat, booked: seq<BookedSlot>)
    requires forall i :: 0 <= i < |booked| && ParseHour(booked[i].jamMulai).Some? ==>
               h + durasi <= ParseHour(booked[i].jamMulai).value
               || ParseHour(booked[i].jamMulai).value + booked[i].durasi <= h
    ensures !IsSlotConflicting(HourLabel(h), durasi, booked)
  {
    ConflictIffOverlap(h, durasi, booked);
  }

  /** Exactly adjacent intervals do not conflict. */
  lemma AdjacentNeverConflicts(h: nat, durasi: nat, b: BookedSlot)
    requires ParseHour(b.jamMulai).Some?
    requires h + durasi == ParseHour(b.jamMulai).value || h == ParseHour(b.jamMulai).value + b.durasi
    ensures !IsSlotConflicting(HourLabel(h), durasi, [b])
  {
    DisjointNeverConflicts(h, durasi, [b]);
  }

  // ---------------------------------------------------------------------
  // Start times offered

  function OpenHour(settings: Settings): Option<nat>
  {
    ParseHour(settings.jamBuka)
  }

  /** The closing hour; "00:00" means midnight at the end of the day. */
  function CloseHour(settings: Settings): (r: Option<nat>)
    ensures settings.jamTutup == "00:00" ==> r == Some(24)
  {
    if settings.jamTutup == "00:00" then Some(24) else ParseHour(settings.jamTutup)
  }

  /** Hour `h` leaves room for `durasi` hours between opening and closing. */
  predicate InRange(h: int, settings: Settings, durasi: nat)
  {
    OpenHour(settings).Some? && CloseHour(settings).Some?
    && OpenHour(settings).value <= h <= CloseHour(settings).value - durasi
  }

  /** On the current day, an hour whose start has come is over. The page
      compares the current time with h:00 of that day, which holds exactly
      when the current hour of the day, `nowHour`, is at least h. */
  predicate Started(h: nat, tanggal: string, todayStr: string, nowHour: nat)
  {
    tanggal == todayStr && nowHour >= h
  }

  /** Hour `h` can be offered: it has not started and overlaps no stored reservation. */
  predicate Offered(h: nat, durasi: nat, tanggal: string, booked: seq<BookedSlot>, todayStr: string, nowHour: nat)
  {
    !Started(h, tanggal, todayStr, nowHour)
    && !exists i :: 0 <= i < |booked| && SlotOverlaps(h, durasi, booked[i])
  }

  /** The hours in [lo, hi) that can be offered, in ascending order. */
  ghost function OfferedBetween(lo: nat, hi: nat, durasi: nat, tanggal: string, booked: seq<BookedSlot>,
                                todayStr: string, nowHour: nat): seq<nat>
  {
    if hi <= lo then []
    else OfferedBetween(lo, hi - 1, durasi, tanggal, booked, todayStr, nowHour)
         + (if Offered(hi - 1, durasi, tanggal, booked, todayStr, nowHour) then [hi - 1] else [])
  }

  /** The labels of those hours, built the way the page's loop builds them. */
  ghost function LabelsBetween(lo: nat, hi: nat, durasi: nat, tanggal: string, booked: seq<BookedSlot>,
                               todayStr: string, nowHour: nat): seq<string>
  {
    if hi <= lo then []
    else LabelsBetween(lo, hi - 1, durasi, tanggal, booked, todayStr, nowHour)
         + (if Offered(hi - 1, durasi, tanggal, booked, todayStr, nowHour) then [HourLabel(hi - 1)] else [])
  }

  /** `OfferedBetween` holds exactly the offered hours of [lo, hi), each once
      and in ascending order. */
  lemma {:induction false} OfferedBetweenMeaning(lo: nat, hi: nat, durasi: nat, tanggal: string,
                                                 booked: seq<BookedSlot>, todayStr: string, nowHour: nat,
                                                 r: seq<nat>)
    requires r == OfferedBetween(lo, hi, durasi, tanggal, booked, todayStr, nowHour)
    ensures forall k: nat :: k in r <==> lo <= k < hi && Offered(k, durasi, tanggal, booked, todayStr, nowHour)
    ensures forall i, j :: 0 <= i < j < |r| ==> r[i] < r[j]
  {
    if hi > lo {
      var p := OfferedBetween(lo, hi - 1, durasi, tanggal, booked, todayStr, nowHour);
      OfferedBetweenMeaning(lo, hi - 1, durasi, tanggal, booked, todayStr, nowHour, p);
      if Offered(hi - 1, durasi, tanggal, booked, todayStr, nowHour) {
        assert r == p + [hi - 1];
        assert forall i :: 0 <= i < |p| ==> p[i] in p;
      } else {
        assert r == p;
      }
    }
  }

  /** The labels are those of the offered hours, position by position. */
  lemma {:induction false} LabelsOfOfferedHours(lo: nat, hi: nat, durasi: nat, tanggal: string,
                                                booked: seq<BookedSlot>, todayStr: string, nowHour: nat)
    ensures var jams := LabelsBetween(lo, hi, durasi, tanggal, booked, todayStr, nowHour);
            var hours := OfferedBetween(lo, hi, durasi, tanggal, booked, todayStr, nowHour);
            |jams| == |hours| && forall i :: 0 <= i < |jams| ==> jams[i] == HourLabel(hours[i])
  {
    if hi > lo {
      LabelsOfOfferedHours(lo, hi - 1, durasi, tanggal, booked, todayStr, nowHour);
    }
  }

  /** An hour that has started adds nothing to the labels. */
  lemma StartedStep(lo: nat, h: nat, durasi: nat, tanggal: string, booked: seq<BookedSlot>,
                    todayStr: string, nowHour: nat)
    requires lo <= h && Started(h, tanggal, todayStr, nowHour)
    ensures LabelsBetween(lo, h + 1, durasi, tanggal, booked, todayStr, nowHour)
            == LabelsBetween(lo, h, durasi, tanggal, booked, todayStr, nowHour)
  {
  }

  /** An hour that has not started adds its label exactly when the page's
      conflict check on that label finds no overlap. */
  lemma CheckedStep(lo: nat, h: nat, durasi: nat, tanggal: string, booked: seq<BookedSlot>,
                    todayStr: string, nowHour: nat, free: bool)
    requires lo <= h && !Started(h, tanggal, todayStr, nowHour)
    requires free == !IsSlotConflicting(HourLabel(h), durasi, booked)
    ensures LabelsBetween(lo, h + 1, durasi, tanggal, booked, todayStr, nowHour)
            == LabelsBetween(lo, h, durasi, tanggal, booked, todayStr, nowHour) + (if free then [HourLabel(h)] else [])
  {
    ConflictIffOverlap(h, durasi, booked);
  }

  /** The `availableStarts` loop: every in-range hour that can be offered,
      as "HH:00" labels in ascending order. */
  method AvailableStarts(settings: Settings, durasi: nat, tanggal: string, booked: seq<BookedSlot>,
                         todayStr: string, nowHour: nat)
    returns (jams: seq<string>, ghost hours: seq<nat>)
    ensures |jams| == |hours| && forall i :: 0 <= i < |jams| ==> jams[i] == HourLabel(hours[i])
    ensures forall i :: 0 <= i < |hours| ==>
              InRange(hours[i], settings, durasi) && Offered(hours[i], durasi, tanggal, booked, todayStr, nowHour)
    ensures forall i, j :: 0 <= i < j < |hours| ==> hours[i] < hours[j]
    ensures forall i, j :: 0 <= i < j < |jams| ==> jams[i] != jams[j]
    ensures forall h: nat :: InRange(h, settings, durasi) ==>
              (HourLabel(h) in jams <==> Offered(h, durasi, tanggal, booked, todayStr, nowHour))
  {
    jams, hours := [], [];
    var buka := OpenHour(settings);
    var tutup := CloseHour(settings);
    if buka.None? || tutup.None? || buka.value > tutup.value - durasi {
      return;
    }
    var last: nat := tutup.value - durasi;
    for h: nat := buka.value to last + 1
      invariant jams == LabelsBetween(buka.value, h, durasi, tanggal, booked, todayStr, nowHour)
    {
      var jamStr := HourLabel(h);
      if tanggal == todayStr && nowHour >= h {
        StartedStep(buka.value, h, durasi, tanggal, booked, todayStr, nowHour);
        continue;
      }
      var free := !IsSlotConflicting(jamStr, durasi, booked);
      CheckedStep(buka.value, h, durasi, tanggal, booked, todayStr, nowHour, free);
      if free {
        jams := jams + [jamStr];
      }
    }
    hours := OfferedBetween(buka.value, last + 1, durasi, tanggal, booked, todayStr, nowHour);
    StartsMeaning(settings, durasi, tanggal, booked, todayStr, nowHour, jams, hours);
  }

  /** What the finished loop's labels mean. */
  lemma StartsMeaning(settings: Settings, durasi: nat, tanggal: string, booked: seq<BookedSlot>,
                      todayStr: string, nowHour: nat, jams: seq<string>, hours: seq<nat>)
    requires OpenHour(settings).Some? && CloseHour(settings).Some?
    requires OpenHour(settings).value <= CloseHour(settings).value - durasi
    requires jams == LabelsBetween(OpenHour(settings).value, CloseHour(settings).value - durasi + 1,
                                   durasi, tanggal, booked, todayStr, nowHour)
    requires hours == OfferedBetween(OpenHour(settings).value, CloseHour(settings).value - durasi + 1,
                                     durasi, tanggal, booked, todayStr, nowHour)
    ensures |jams| == |hours| && forall i :: 0 <= i < |jams| ==> jams[i] == HourLabel(hours[i])
    ensures forall i :: 0 <= i < |hours| ==>
              InRange(hours[i], settings, durasi) && Offered(hours[i], durasi, tanggal, booked, todayStr, nowHour)
    ensures forall i, j :: 0 <= i < j < |hours| ==> hours[i] < hours[j]
    ensures forall i, j :: 0 <= i < j < |jams| ==> jams[i] != jams[j]
    ensures forall h: nat :: InRange(h, settings, durasi) ==>
              (HourLabel(h) in jams <==> Offered(h, durasi, tanggal, booked, todayStr, nowHour))
  {
    var lo := OpenHour(settings).value;
    var hi := CloseHour(settings).value - durasi + 1;
    LabelsOfOfferedHours(lo, hi, durasi, tanggal, booked, todayStr, nowHour);
    OfferedBetweenMeaning(lo, hi, durasi, tanggal, booked, todayStr, nowHour, hours);
    LabelsOfAscendingHours(jams, hours);
    forall i | 0 <= i < |hours|
      ensures InRange(hours[i], settings, durasi) && Offered(hours[i], durasi, tanggal, booked, todayStr, nowHour)
    {
      assert hours[i] in hours;
    }
    forall h: nat | InRange(h, settings, durasi)
      ensures HourLabel(h) in jams <==> Offered(h, durasi, tanggal, booked, todayStr, nowHour)
    {
      assert lo <= h < hi;
    }
  }

  /** Labels of strictly ascending hours are distinct, and a label is among
      them exactly when its hour is. */
  lemma LabelsOfAscendingHours(jams: seq<string>, hours: seq<nat>)
    requires |jams| == |hours| && forall i :: 0 <= i < |jams| ==> jams[i] == HourLabel(hours[i])
    requires forall i, j :: 0 <= i < j < |hours| ==> hours[i] < hours[j]
    ensures forall i, j :: 0 <= i < j < |jams| ==> jams[i] != jams[j]
    ensures forall h: nat :: HourLabel(h) in jams <==> h in hours
  {
    forall i, j | 0 <= i < j < |jams| ensures jams[i] != jams[j] {
      if jams[i] == jams[j] { HourLabelInjective(hours[i], hours[j]); }
    }
    forall h: nat | HourLabel(h) in jams ensures h in hours {
      var i :| 0 <= i < |jams| && jams[i] == HourLabel(h);
      HourLabelInjective(h, hours[i]);
    }
    forall h: nat | h in hours ensures HourLabel(h) in jams {
      var i :| 0 <= i < |hours| && hours[i] == h;
      assert jams[i] == HourLabel(h);
    }
  }

  // ---------------------------------------------------------------------
  // End times

  /** The end hour written to the database: start plus duration, no wrap. */
  function JamSelesaiDb(jamMulai: string, durasi: nat): (r: string)
    ensures ParseHour(jamMulai).Some? ==> ParseHour(r) == Some(ParseHour(jamMulai).value + durasi)
    ensures ParseHour(jamMulai).None? ==> r == "NaN:00"
  {
    var r := Label(Shift(ParseHour(jamMulai), durasi));
    if ParseHour(jamMulai).Some? then
      ParseHourLabel(ParseHour(jamMulai).value + durasi, "");
      assert r + "" == r;
      r
    else r
  }

  /** The end hour shown to the customer: start plus duration, less 24 only
      when the sum passes 24. */
  function GetDisplayEndTime(jamMulai: string, durasi: nat): (r: string)
    ensures ParseHour(jamMulai).None? ==> r == "NaN:00"
    ensures ParseHour(jamMulai).Some? ==>
              var e := ParseHour(jamMulai).value + durasi;
              ParseHour(r).Some? && (ParseHour(r).value == e || ParseHour(r).value + 24 == e)
              && (ParseHour(r).value == e <==> e <= 24)
    ensures ParseHour(jamMulai).Some? ==> r == HourLabel(ParseHour(r).value)
  {
    match ParseHour(jamMulai)
    case None => "NaN:00"
    case Some(s) =>
      var e := s + durasi;
      var shown: nat := if e > 24 then e - 24 else e;
      ParseHourLabel(shown, "");
      assert HourLabel(shown) + "" == HourLabel(shown);
      HourLabel(shown)
  }

  /** For every start the page can offer under a closing hour of at most 24,
      the end shown equals the end stored. */
  lemma DisplayEndMatchesStoredEnd(h: nat, settings: Settings, durasi: nat)
    requires InRange(h, settings, durasi) && CloseHour(settings).value <= 24
    ensures GetDisplayEndTime(HourLabel(h), durasi) == JamSelesaiDb(HourLabel(h), durasi)
  {
    ParseHourLabel(h, "");
    assert HourLabel(h) + "" == HourLabel(h);
  }

  // ---------------------------------------------------------------------
  // Submitting

  /** The row `handleSubmit` inserts. */
  function NewBooking(nama: string, whatsapp: string, tanggal: string, jamMulai: string, durasi: nat, roomId: int)
    : (r: BookingRecord)
    ensures r.status == Pending && r.durasiSewa == Some(durasi) && r.roomId == roomId && r.tanggal == tanggal
    ensures r.nama == Trim(nama) && r.whatsapp == Trim(whatsapp)
    ensures r.jam == jamMulai + " - " + JamSelesaiDb(jamMulai, durasi)
  {
    BookingRecord(Trim(nama), Trim(whatsapp), tanggal, jamMulai + " - " + JamSelesaiDb(jamMulai, durasi),
                  Pending, roomId, Some(durasi))
  }

  /** For a start the page offers, the stored range is that label, " - ",
      and the label `durasi` hours later, with no wrap past midnight. */
  lemma NewBookingRange(nama: string, whatsapp: string, tanggal: string, h: nat, durasi: nat, roomId: int)
    ensures NewBooking(nama, whatsapp, tanggal, HourLabel(h), durasi, roomId).jam
            == HourLabel(h) + " - " + HourLabel(h + durasi)
  {
    ParseHourLabel(h, "");
    assert HourLabel(h) + "" == HourLabel(h);
  }

  /** The columns of a stored row that the page selects. */
  function Selected(rec: BookingRecord): BookingRow
  {
    BookingRow(rec.jam, rec.durasiSewa)
  }

  /** What the page inserts for a start it offered reads back as the same
      start and duration. */
  lemma SubmittedRowReadsBack(nama: string, whatsapp: string, tanggal: string, h: nat, durasi: nat, roomId: int)
    requires durasi != 0
    ensures ParseRow(Selected(NewBooking(nama, whatsapp, tanggal, HourLabel(h), durasi, roomId)))
            == BookedSlot(HourLabel(h), durasi)
  {
    RangeStartRoundTrip(h, JamSelesaiDb(HourLabel(h), durasi));
  }

  /** Once a submitted reservation is read back, no start whose interval
      overlaps it is offered again, in particular not its own start. */
  lemma SubmittedSlotNoLongerOffered(nama: string, whatsapp: string, tanggal: string, h: nat, durasi: nat, roomId: int,
                                     booked: seq<BookedSlot>, h': nat, durasi': nat, todayStr: string, nowHour: nat)
    requires durasi != 0
    requires Overlaps(h', durasi', h, durasi)
    ensures !Offered(h', durasi', tanggal,
                     booked + [ParseRow(Selected(NewBooking(nama, whatsapp, tanggal, HourLabel(h), durasi, roomId)))],
                     todayStr, nowHour)
  {
    SubmittedRowReadsBack(nama, whatsapp, tanggal, h, durasi, roomId);
    var all := booked + [BookedSlot(HourLabel(h), durasi)];
    ParseHourLabel(h, "");
    assert HourLabel(h) + "" == HourLabel(h);
    assert SlotOverlaps(h', durasi', all[|booked|]);
  }

  /** With no date chosen the page fetches nothing, so every hour that has
      not started is offered. */
  lemma NoDateOffersEveryUnstartedHour(h: nat, durasi: nat, rows: seq<BookingRow>, todayStr: string, nowHour: nat)
    ensures Offered(h, durasi, "", BookedFor("", rows), todayStr, nowHour) <==> !Started(h, "", todayStr, nowHour)
  {
  }

  /** A fetched row for the chosen date whose range starts with a label
      keeps every start overlapping it from being offered. */
  lemma FetchedRowBlocks(tanggal: string, rows: seq<BookingRow>, i: nat, k: nat, rest: string,
                         h: nat, durasi: nat, todayStr: string, nowHour: nat)
    requires tanggal != "" && i < |rows| && rows[i].jam == HourLabel(k) + " - " + rest
    requires Overlaps(h, durasi, k, ParseRow(rows[i]).durasi)
    ensures !Offered(h, durasi, tanggal, BookedFor(tanggal, rows), todayStr, nowHour)
  {
    var booked := BookedFor(tanggal, rows);
    ParseRowStart(k, rest, rows[i].durasiSewa);
    assert booked[i] == ParseRow(rows[i]);
    ParseHourLabel(k, "");
    assert HourLabel(k) + "" == HourLabel(k);
    assert SlotOverlaps(h, durasi, booked[i]);
  }

  /** The booking form's state. */
  class BookingForm {
    var nama: string
    var whatsapp: string
    var tanggal: string
    var jamMulai: string
    var durasi: nat
    var warning: string

    constructor ()
      ensures nama == "" && whatsapp == "" && tanggal == "" && jamMulai == ""
      ensures durasi == DefaultDurasi && warning == ""
    {
      nama, whatsapp, tanggal, jamMulai := "", "", "", "";
      durasi, warning := DefaultDurasi, "";
    }

    /** Some required field is still empty. */
    predicate Incomplete()
      reads this
    {
      nama == "" || whatsapp == "" || tanggal == "" || jamMulai == ""
    }

    /** Choosing a date clears the chosen start. */
    method SetTanggal(t: string)
      modifies this`tanggal, this`jamMulai
      ensures tanggal == t && jamMulai == ""
    {
      tanggal, jamMulai := t, "";
    }

    /** Choosing a duration clears the chosen start. */
    method SetDurasi(d: nat)
      requires d in DurasiOptions
      modifies this`durasi, this`jamMulai
      ensures durasi == d && jamMulai == ""
      ensures DefaultDurasi <= durasi <= 5
    {
      durasi, jamMulai := d, "";
    }

    /** Choosing one of the offered starts. */
    method PickStart(jam: string)
      modifies this`jamMulai
      ensures jamMulai == jam
    {
      jamMulai := jam;
    }

    /** `handleSubmit`: an incomplete form only sets a warning; otherwise the
        new row is sent and, unless the store reports a failure, the
        confirmation message is notified. */
    method HandleSubmit(roomId: int, insert: InsertOutcome) returns (sent: Option<BookingRecord>, notified: bool)
      modifies this`warning
      ensures Incomplete() ==> sent.None? && !notified && warning == IncompleteWarning
      ensures !Incomplete() ==> sent == Some(NewBooking(nama, whatsapp, tanggal, jamMulai, durasi, roomId))
      ensures !Incomplete() ==> (notified <==> insert == InsertOk)
      ensures !Incomplete() ==> warning == (if insert == InsertOk then old(warning) else FailureWarning)
    {
      if nama == "" || whatsapp == "" || tanggal == "" || jamMulai == "" {
        warning := IncompleteWarning;
        return None, false;
      }
      var rec := NewBooking(nama, whatsapp, tanggal, jamMulai, durasi, roomId);
      sent := Some(rec);
      if insert != InsertOk {
        warning := FailureWarning;
        return sent, false;
      }
      notified := true;
    }
  }
}
