/** The studio's admin screen: the list of active reservations with its
    search filter and today's count, the end time shown for each row, and
    the confirm and cancel actions that update the list locally and then
    send their steps to the database. */
module AdminWangsa {
  import opened Text
  import opened Store

  /** An active reservation as the admin screen selects it. */
  datatype Booking = Booking(
    id: int,
    nama: string,
    whatsapp: string,
    tanggal: string,
    jam: string,
    status: string,
    createdAt: string,
    roomId: int,
    durasiSewa: Option<nat>)

  /** Opening hours and the default duration; the duration may be NaN
      (`None`) after an edit that does not parse. */
  datatype Settings = Settings(jamBuka: string, jamTutup: string, durasiSewa: Option<nat>)

  const DefaultDurasi: nat := 2
  const DefaultSettings := Settings("10:00", "00:00", Some(DefaultDurasi))

  /** The row written to `cancelled_bookings`. */
  datatype ArchiveRecord = ArchiveRecord(nama: string, whatsapp: string, tanggal: string, jam: string, roomId: int)

  /** The database steps the screen issues, in order. */
  datatype Command =
    | UpdateStatus(id: int, status: string)
    | InsertArchive(rec: ArchiveRecord)
    | DeleteBooking(id: int)
    | Refetch

  // ---------------------------------------------------------------------
  // Settings and durations

  /** The settings after a fetch: when a row came back, each field falls
      back to its default on its own. */
  function LoadSettings(current: Settings, row: Option<SettingsRow>): (s: Settings)
    ensures row.None? ==> s == current
    ensures row.Some? ==> s.jamBuka != "" && s.jamTutup != "" && s.durasiSewa.Some? && s.durasiSewa.value != 0
    ensures row.Some? && row.value.jamBuka.Some? && row.value.jamBuka.value != "" ==> s.jamBuka == row.value.jamBuka.value
    ensures row.Some? && row.value.jamTutup.Some? && row.value.jamTutup.value != "" ==> s.jamTutup == row.value.jamTutup.value
    ensures row.Some? && row.value.durasiSewa.Some? && row.value.durasiSewa.value != 0 ==> s.durasiSewa == row.value.durasiSewa
    ensures row.Some? && (row.value.durasiSewa.None? || row.value.durasiSewa.value == 0) ==> s.durasiSewa == Some(DefaultDurasi)
    ensures row.Some? && (row.value.jamBuka.None? || row.value.jamBuka.value == "") ==> s.jamBuka == "10:00"
    ensures row.Some? && (row.value.jamTutup.None? || row.value.jamTutup.value == "") ==> s.jamTutup == "00:00"
  {
    match row
    case None => current
    case Some(r) =>
      Settings(OrString(r.jamBuka, "10:00"), OrString(r.jamTutup, "00:00"), Some(OrNat(r.durasiSewa, DefaultDurasi)))
  }

  /** The duration shown for a row: its own, else the settings', else 2. */
  function DisplayDuration(b: Booking, settings: Settings): (d: nat)
    ensures d != 0
    ensures b.durasiSewa.Some? && b.durasiSewa.value != 0 ==> d == b.durasiSewa.value
    ensures (b.durasiSewa.None? || b.durasiSewa.value == 0) && settings.durasiSewa.Some? && settings.durasiSewa.value != 0
            ==> d == settings.durasiSewa.value
    ensures (b.durasiSewa.None? || b.durasiSewa.value == 0) && (settings.durasiSewa.None? || settings.durasiSewa.value == 0)
            ==> d == DefaultDurasi
  {
    OrNat(b.durasiSewa, OrNat(settings.durasiSewa, DefaultDurasi))
  }

  /** `getJamSelesai`: the number before the first ':' plus the duration,
      as an "HH:00" label with no wrap past 24 ("NaN:00" when that field
      is not a number). */
  function GetJamSelesai(jamMulai: string, durasi: nat): (r: string)
    ensures JsNumber(FieldBefore(jamMulai, ":")).Some? ==>
              ParseHour(r) == Some(JsNumber(FieldBefore(jamMulai, ":")).value + durasi)
    ensures JsNumber(FieldBefore(jamMulai, ":")).None? ==> r == "NaN:00"
  {
    var r := Label(Shift(JsNumber(FieldBefore(jamMulai, ":")), durasi));
    if JsNumber(FieldBefore(jamMulai, ":")).Some? then
      var e := JsNumber(FieldBefore(jamMulai, ":")).value + durasi;
      ParseHourLabel(e, "");
      assert HourLabel(e) + "" == HourLabel(e);
      r
    else r
  }

  /** For a stored range that starts with a label, the end shown is the
      label of start plus duration, whatever follows the start. */
  lemma EndOfStoredRange(h: nat, rest: string, durasi: nat)
    ensures GetJamSelesai(HourLabel(h) + rest, durasi) == HourLabel(h + durasi)
  {
    NumberOfLabelField(h, rest);
  }

  // ---------------------------------------------------------------------
  // Filters over the list

  /** `bookings.filter(keep)`. */
  function Filter(s: seq<Booking>, keep: Booking -> bool): (r: seq<Booking>)
    ensures |r| <= |s|
    ensures forall x :: x in r <==> x in s && keep(x)
  {
    if s == [] then []
    else (if keep(s[0]) then [s[0]] else []) + Filter(s[1..], keep)
  }

  /** Filtering keeps order: the filter of a concatenation is the
      concatenation of the filters. */
  lemma {:induction false} FilterAppend(a: seq<Booking>, b: seq<Booking>, keep: Booking -> bool)
    ensures Filter(a + b, keep) == Filter(a, keep) + Filter(b, keep)
  {
    if a == [] {
      assert a + b == b;
    } else {
      assert (a + b)[1..] == a[1..] + b;
      FilterAppend(a[1..], b, keep);
    }
  }

  /** A filter that keeps every element returns the list unchanged. */
  lemma {:induction false} FilterKeepsAll(s: seq<Booking>, keep: Booking -> bool)
    requires forall i :: 0 <= i < |s| ==> keep(s[i])
    ensures Filter(s, keep) == s
  {
    if s != [] {
      FilterKeepsAll(s[1..], keep);
    }
  }

  /** The search rule: the lower-cased name contains the lower-cased term,
      or the number or the date contains the term as typed. */
  predicate Matches(b: Booking, term: string)
    ensures term == "" ==> Matches(b, term)
  {
    Contains(ToLower(b.nama), ToLower(term)) || Contains(b.whatsapp, term) || Contains(b.tanggal, term)
  }

  /** `filteredBookings`. */
  function FilteredBookings(bookings: seq<Booking>, term: string): (r: seq<Booking>)
    ensures forall b :: b in r <==> b in bookings && Matches(b, term)
  {
    Filter(bookings, b => Matches(b, term))
  }

  /** An empty search term shows every reservation, in order. */
  lemma EmptySearchKeepsAll(bookings: seq<Booking>)
    ensures FilteredBookings(bookings, "") == bookings
  {
    forall i | 0 <= i < |bookings| ensures Matches(bookings[i], "") {
      ContainsEmpty(ToLower(bookings[i].nama));
    }
    FilterKeepsAll(bookings, b => Matches(b, ""));
  }

  /** Searching a longer list searches each part in turn. */
  lemma SearchKeepsOrder(a: seq<Booking>, b: seq<Booking>, term: string)
    ensures FilteredBookings(a + b, term) == FilteredBookings(a, term) + FilteredBookings(b, term)
  {
    FilterAppend(a, b, x => Matches(x, term));
  }

  /** The dates of the reservations, in order. */
  function Dates(bookings: seq<Booking>): (ds: seq<string>)
    ensures |ds| == |bookings| && forall i :: 0 <= i < |bookings| ==> ds[i] == bookings[i].tanggal
  {
    if bookings == [] then [] else [bookings[0].tanggal] + Dates(bookings[1..])
  }

  /** `todayBookingsCount`. */
  function TodayBookingsCount(bookings: seq<Booking>, today: string): (n: nat)
    ensures n <= |bookings|
  {
    |Filter(bookings, (b: Booking) => b.tanggal == today)|
  }

  /** Today's count is the number of times today's date occurs among the dates. */
  lemma {:induction false} TodayCountIsOccurrences(bookings: seq<Booking>, today: string)
    ensures TodayBookingsCount(bookings, today) == multiset(Dates(bookings))[today]
  {
    if bookings != [] {
      TodayCountIsOccurrences(bookings[1..], today);
      assert Dates(bookings) == [bookings[0].tanggal] + Dates(bookings[1..]);
    }
  }

  // ---------------------------------------------------------------------
  // Local list updates

  /** Confirm's local update: every entry with the id becomes booked. */
  function ConfirmLocal(bookings: seq<Booking>, id: int): (r: seq<Booking>)
    ensures |r| == |bookings|
    ensures forall i :: 0 <= i < |r| && bookings[i].id == id ==> r[i] == bookings[i].(status := Booked)
    ensures forall i :: 0 <= i < |r| && bookings[i].id != id ==> r[i] == bookings[i]
  {
    if bookings == [] then []
    else
      [if bookings[0].id == id then bookings[0].(status := Booked) else bookings[0]]
      + ConfirmLocal(bookings[1..], id)
  }

  /** Confirming twice is confirming once. */
  lemma ConfirmIdempotent(bookings: seq<Booking>, id: int)
    ensures ConfirmLocal(ConfirmLocal(bookings, id), id) == ConfirmLocal(bookings, id)
  {
  }

  /** Cancel's local update: every entry with the id is removed. */
  function CancelLocal(bookings: seq<Booking>, id: int): (r: seq<Booking>)
    ensures forall b :: b in r <==> b in bookings && b.id != id
  {
    Filter(bookings, (b: Booking) => b.id != id)
  }

  /** Cancelling keeps the other entries in their order and removes one
      entry for each occurrence of the id. */
  lemma {:induction false} CancelRemovesExactly(bookings: seq<Booking>, id: int)
    ensures |CancelLocal(bookings, id)| + |Filter(bookings, (b: Booking) => b.id == id)| == |bookings|
    ensures forall a, c :: bookings == a + c ==> CancelLocal(bookings, id) == CancelLocal(a, id) + CancelLocal(c, id)
  {
    forall a, c | bookings == a + c
      ensures CancelLocal(bookings, id) == CancelLocal(a, id) + CancelLocal(c, id)
    {
      FilterAppend(a, c, (b: Booking) => b.id != id);
    }
    if bookings != [] {
      CancelRemovesExactly(bookings[1..], id);
    }
  }

  /** `bookings.find(b => b.id === id)`. */
  function FindBooking(bookings: seq<Booking>, id: int): (r: Option<Booking>)
    ensures r.None? <==> forall i :: 0 <= i < |bookings| ==> bookings[i].id != id
    ensures r.Some? ==> exists k :: 0 <= k < |bookings| && bookings[k] == r.value && bookings[k].id == id
                                   && forall j :: 0 <= j < k ==> bookings[j].id != id
  {
    if bookings == [] then None
    else if bookings[0].id == id then Some(bookings[0])
    else FindBooking(bookings[1..], id)
  }

  /** The archive row of a cancelled reservation. */
  function ArchiveOf(b: Booking): (a: ArchiveRecord)
    ensures a.nama == b.nama && a.whatsapp == b.whatsapp && a.tanggal == b.tanggal
    ensures a.jam == b.jam && a.roomId == b.roomId
  {
    ArchiveRecord(b.nama, b.whatsapp, b.tanggal, b.jam, b.roomId)
  }

  // ---------------------------------------------------------------------
  // Store protocol

  /** The steps of a confirmation: the status update, then a refetch if it failed. */
  function ConfirmCommands(id: int, update: StepOutcome): (cmds: seq<Command>)
    ensures |cmds| >= 1 && cmds[0] == UpdateStatus(id, Booked)
    ensures Refetch in cmds <==> update.StepFailed?
    ensures |cmds| == (if update.StepFailed? then 2 else 1)
    ensures update.StepFailed? ==> cmds[1] == Refetch
  {
    [UpdateStatus(id, Booked)] + (if update.StepFailed? then [Refetch] else [])
  }

  /** The steps of a cancellation: archive the reservation; if that
      failed, refetch and stop; otherwise delete it, and refetch if the
      delete failed. */
  function CancelCommands(b: Booking, id: int, archive: StepOutcome, delete: StepOutcome): (cmds: seq<Command>)
    ensures |cmds| >= 2 && cmds[0] == InsertArchive(ArchiveOf(b))
    ensures DeleteBooking(id) in cmds <==> archive == StepOk
    ensures Refetch in cmds <==> archive.StepFailed? || delete.StepFailed?
    ensures forall c :: c in cmds ==> !c.UpdateStatus?
    ensures forall c :: c in cmds ==> c == InsertArchive(ArchiveOf(b)) || c == DeleteBooking(id) || c == Refetch
    ensures |cmds| == (if archive == StepOk && delete.StepFailed? then 3 else 2)
    ensures archive == StepOk ==> cmds[1] == DeleteBooking(id)
    ensures cmds[|cmds| - 1] == Refetch <==> archive.StepFailed? || delete.StepFailed?
  {
    [InsertArchive(ArchiveOf(b))]
    + (if archive.StepFailed? then [Refetch]
       else [DeleteBooking(id)] + (if delete.StepFailed? then [Refetch] else []))
  }

  /** The archive insert comes first, carries the reservation's fields
      unchanged, and any delete comes after it. */
  lemma ArchiveBeforeDelete(b: Booking, id: int, archive: StepOutcome, delete: StepOutcome)
    ensures var cmds := CancelCommands(b, id, archive, delete);
            cmds[0] == InsertArchive(ArchiveRecord(b.nama, b.whatsapp, b.tanggal, b.jam, b.roomId))
            && forall i :: 0 <= i < |cmds| && cmds[i].DeleteBooking? ==> 0 < i
  {
  }

  /** A delete is issued exactly when the archive insert succeeded, and it
      deletes the cancelled id. */
  lemma NoDeleteWithoutArchive(b: Booking, id: int, archive: StepOutcome, delete: StepOutcome)
    ensures var cmds := CancelCommands(b, id, archive, delete);
            (exists i :: 0 <= i < |cmds| && cmds[i].DeleteBooking?) <==> archive == StepOk
    ensures forall c :: c in CancelCommands(b, id, archive, delete) && c.DeleteBooking? ==> c.id == id
  {
    var cmds := CancelCommands(b, id, archive, delete);
    if archive == StepOk {
      assert cmds[1].DeleteBooking?;
    }
  }

  /** The admin screen's state. */
  class AdminPanel {
    var bookings: seq<Booking>
    var settings: Settings
    var searchTerm: string
    /** The database steps issued so far. */
    var issued: seq<Command>

    constructor ()
      ensures bookings == [] && settings == DefaultSettings && searchTerm == "" && issued == []
    {
      bookings, settings, searchTerm, issued := [], DefaultSettings, "", [];
    }

    /** `fetchData`: `active` is the reservations query (`None` when it
        failed), `cancelledOk` whether the archive query succeeded or found
        nothing, `row` the settings row. A failed query stops the fetch. */
    method FetchData(active: Option<seq<Booking>>, cancelledOk: bool, row: Option<SettingsRow>)
      modifies this`bookings, this`settings
      ensures active.None? ==> bookings == old(bookings) && settings == old(settings)
      ensures active.Some? ==> bookings == active.value
      ensures active.Some? && !cancelledOk ==> settings == old(settings)
      ensures active.Some? && cancelledOk ==> settings == LoadSettings(old(settings), row)
    {
      if active.None? {
        return;
      }
      bookings := active.value;
      if !cancelledOk {
        return;
      }
      settings := LoadSettings(settings, row);
    }

    /** `handleConfirm`: unless the admin declines, the entry becomes booked
        locally, then the status update is sent and a failure refetches. */
    method HandleConfirm(id: int, approved: bool, update: StepOutcome)
      modifies this`bookings, this`issued
      ensures !approved ==> bookings == old(bookings) && issued == old(issued)
      ensures approved ==> bookings == ConfirmLocal(old(bookings), id)
      ensures approved ==> issued == old(issued) + ConfirmCommands(id, update)
    {
      if !approved {
        return;
      }
      bookings := ConfirmLocal(bookings, id);
      issued := issued + [UpdateStatus(id, Booked)];
      if update.StepFailed? {
        issued := issued + [Refetch];
      }
    }

    /** `handleCancel`: unless the admin declines, the entry leaves the
        list locally, then it is archived and, only if that succeeded,
        deleted; a failed step refetches. For an id missing from the list,
        reading the entry to archive throws before anything is sent. */
    method HandleCancel(id: int, approved: bool, archive: StepOutcome, delete: StepOutcome)
      modifies this`bookings, this`issued
      ensures !approved ==> bookings == old(bookings) && issued == old(issued)
      ensures approved ==> bookings == CancelLocal(old(bookings), id)
      ensures approved && FindBooking(old(bookings), id).None? ==> issued == old(issued)
      ensures approved && FindBooking(old(bookings), id).Some? ==>
                issued == old(issued) + CancelCommands(FindBooking(old(bookings), id).value, id, archive, delete)
    {
      if !approved {
        return;
      }
      var bookingToCancel := FindBooking(bookings, id);
      bookings := CancelLocal(bookings, id);
      if bookingToCancel.None? {
        return;
      }
      issued := issued + [InsertArchive(ArchiveOf(bookingToCancel.value))];
      if archive.StepFailed? {
        issued := issued + [Refetch];
        return;
      }
      issued := issued + [DeleteBooking(id)];
      if delete.StepFailed? {
        issued := issued + [Refetch];
      }
    }
  }
}
