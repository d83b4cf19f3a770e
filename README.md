# Studio booking: reservation-slot logic in Dafny

A studio-rental website takes reservations for rehearsal rooms by the hour.
Three screens each implement the slot logic in their own way, and this
project models all three together with the home screen's schedule merge:

- **The booking page** (`BookingPage`) parses the opening hours, closing
  "00:00" meaning hour 24. It offers every start hour from opening to
  `close - duration` that has not yet started today and that does not
  overlap a stored pending or booked reservation, using the half-open rule
  `start < bEnd && end > bStart`. It writes the reservation as a
  `"HH:00 - HH:00"` range and reads that range back. The end time it shows
  wraps past 24.
- **The room modal** (`BookingModal`) has fixed two-hour blocks and five
  fixed start times. A block is taken when one of its hours matches a
  recorded slot of that date with status `pending` or `booked`. Submission
  passes three guards in order: a missing field, today from 12:00 on, and a
  taken block. The store's errors map to warnings, with a message of its
  own for a uniqueness violation.
- **The admin screen** (`AdminWangsa`) computes each row's end time, with
  fallbacks for a missing duration. It filters the list by a search term,
  counts today's reservations, confirms a reservation (one id becomes
  `booked`) and cancels one. Cancelling removes the id locally, archives
  the row, and deletes it only if the archive succeeded.
- **The home screen** (`App`) merges the latest per-room schedule into the
  room list by id.

Supporting modules:

- `Text` holds the JavaScript string and number operations these screens
  rely on: `parseInt`, `Number`, `padStart`, `split(..)[0]`, `trim`,
  `toLowerCase` and `includes`. It also holds the round trips between hour
  labels and their parsers. A NaN is `None`, and its label is the literal
  `"NaN:00"` that JavaScript produces.
- `Store` holds the records written to the hosted database and the
  outcomes it reports. The database is never called: every operation takes
  the outcome as a parameter.
- `Consistency` proves how the screens agree on shared data, and where
  they do not.

Interactive state becomes classes (`BookingForm`, `Modal`,
`AdminPanel`) whose fields are the component state their handlers update.
`BookingForm` holds only the form fields and the warning; the page's
opening hours and its fetched reservations are passed to its operations
as parameters. Loops stay loops: the
`availableStarts` loop with its `continue`, and the hour-by-hour
`isBlockTaken` loop with its early return.

## Model

| member | source | states |
|---|---|---|
| BookingPage.LoadSettings | src/pages/BookingPage.jsx:41-44 | with no row the settings stay as they were; with a row each hour falls back to "10:00" / "00:00" on its own when missing or empty |
| BookingPage.ParseRow | src/pages/BookingPage.jsx:54 | the start is the trimmed part of the stored range before " - "; the duration is the row's own when present and non-zero, else 2 |
| BookingPage.ParseRowStart | src/pages/BookingPage.jsx:54 | a range that starts with a label reads back as that label, whatever follows and whatever the duration |
| BookingPage.BookedFor | src/pages/BookingPage.jsx:48-55 | no date gives no reservations; otherwise every fetched row is read back, position by position |
| BookingPage.NoDateOffersEveryUnstartedHour | src/pages/BookingPage.jsx:49 | with no date chosen nothing is fetched, so an hour is offered iff it has not started |
| BookingPage.FetchedRowBlocks | src/pages/BookingPage.jsx:53-55 | a fetched row of the chosen date keeps every start overlapping its range from being offered |
| BookingPage.IsSlotConflicting | src/pages/BookingPage.jsx:61-69 | true iff the start parses and some stored reservation with a parsing start overlaps it by the half-open rule |
| BookingPage.ConflictIffOverlap | src/pages/BookingPage.jsx:61-69 | for an "HH:00" label, conflicting iff some reservation overlaps [h, h + durasi) |
| BookingPage.DisjointNeverConflicts | src/pages/BookingPage.jsx:64-68 | a candidate disjoint from every reservation never conflicts |
| BookingPage.AdjacentNeverConflicts | src/pages/BookingPage.jsx:67 | a candidate that ends where a reservation starts, or starts where it ends, does not conflict |
| BookingPage.CloseHour | src/pages/BookingPage.jsx:73 | closing "00:00" is hour 24 |
| BookingPage.OfferedBetweenMeaning | src/pages/BookingPage.jsx:77-85 | the reference list of offered hours holds exactly the in-range hours that have not started and overlap nothing, strictly ascending |
| BookingPage.LabelsOfOfferedHours | src/pages/BookingPage.jsx:78 | the labels the loop builds are the "HH:00" labels of the offered hours, position by position |
| BookingPage.StartedStep | src/pages/BookingPage.jsx:79-83 | an hour that has already started today adds nothing |
| BookingPage.CheckedStep | src/pages/BookingPage.jsx:84 | any other hour adds its label exactly when the conflict check finds no overlap |
| BookingPage.AvailableStarts | src/pages/BookingPage.jsx:71-87 | every returned start lies between opening and close - duration and can be offered; the starts ascend strictly and are distinct; an in-range hour is returned iff it has not started today and overlaps no reservation (so nothing is returned when opening > close - duration) |
| BookingPage.StartsMeaning | src/pages/BookingPage.jsx:76-86 | the same five facts for the labels the finished loop holds |
| BookingPage.LabelsOfAscendingHours | src/pages/BookingPage.jsx:78 | labels of strictly ascending hours are distinct, and a label is present iff its hour is |
| BookingPage.JamSelesaiDb | src/pages/BookingPage.jsx:99 | the stored end parses to start + durasi with no wrap; "NaN:00" when the start does not parse |
| BookingPage.GetDisplayEndTime | src/pages/BookingPage.jsx:89-92 | the end shown is the zero-padded "HH:00" label of start + durasi, less 24 exactly when the sum passes 24, and "NaN:00" for an unparsable start |
| BookingPage.DisplayEndMatchesStoredEnd | src/pages/BookingPage.jsx:89-99 | for an offered start with closing at most 24, the shown end equals the stored end |
| BookingPage.NewBooking | src/pages/BookingPage.jsx:101-103 | the inserted row is pending, carries the trimmed name and number, the date, the room and the chosen duration, and its range is the start, " - " and JamSelesaiDb's end |
| BookingPage.NewBookingRange | src/pages/BookingPage.jsx:99-103 | for the label of hour h and duration d the stored range is "HH:00 - EE:00" with EE the label of h + d, unwrapped past midnight |
| BookingPage.SubmittedRowReadsBack | src/pages/BookingPage.jsx:99-103 | the stored range of a submitted start reads back as that start with its duration |
| BookingPage.SubmittedSlotNoLongerOffered | src/pages/BookingPage.jsx:77-85 | once read back, a submitted reservation keeps every overlapping start from being offered |
| BookingPage.BookingForm.constructor | src/pages/BookingPage.jsx:24-33 | the form starts empty with duration 2 and no warning |
| BookingPage.BookingForm.SetTanggal | src/pages/BookingPage.jsx:177 | choosing a date clears the chosen start |
| BookingPage.BookingForm.SetDurasi | src/pages/BookingPage.jsx:188-191 | choosing one of the offered durations (2 to 5 hours) sets it and clears the chosen start |
| BookingPage.BookingForm.PickStart | src/pages/BookingPage.jsx:218 | choosing a start sets it |
| BookingPage.BookingForm.HandleSubmit | src/pages/BookingPage.jsx:94-110 | an empty field only sets the warning and sends nothing; otherwise the new row is sent, the notification opens iff the insert succeeds, and a failure sets the failure warning |
| BookingModal.JamSelesai | src/components/BookingModal.jsx:37-39 | empty iff no start; otherwise parses to start + 2, or "NaN:00" |
| BookingModal.JamUntukDatabase | src/components/BookingModal.jsx:42 | empty iff no start; otherwise begins with the start and is longer |
| BookingModal.RangeOfLabel | src/components/BookingModal.jsx:37-42 | for a label the stored range is "start - end" with end the label two hours later |
| BookingModal.SlotTaken | src/components/BookingModal.jsx:51-56 | true iff some recorded slot has the date, the label and an occupying status |
| BookingModal.BlockTakenIffHourInside | src/components/BookingModal.jsx:46-59 | a block is taken iff the date is chosen and an occupying slot of that date sits at an hour in [start, start + 2) |
| BookingModal.HourTakenBlocks | src/components/BookingModal.jsx:57 | one blocked hour makes the block taken |
| BookingModal.NoHourTakenFrees | src/components/BookingModal.jsx:59 | a block with no blocked hour is free |
| BookingModal.NonOccupyingSlotNeverBlocks | src/components/BookingModal.jsx:55 | a slot with another status, such as "used", never changes whether a block is taken |
| BookingModal.TimeSlotsAreLabels | src/components/BookingModal.jsx:16 | the fixed starts are the labels of 10, 13, 16, 19 and 22, at least three hours apart |
| BookingModal.SeparateBlocksUnaffected | src/components/BookingModal.jsx:45-59 | recording an hour of one block never changes whether a block sharing no hour with it is taken |
| BookingModal.ModalBooking | src/components/BookingModal.jsx:91-98 | the inserted row is pending, has trimmed name and number, the stored range, and no duration column |
| BookingModal.InsertWarning | src/components/BookingModal.jsx:100-115 | no warning iff the insert succeeded; "23505" gives its own message, another error the store's message after "Gagal booking: ", a throw the retry message |
| BookingModal.FailureMessagesDistinct | src/components/BookingModal.jsx:102-113 | the three failure messages differ whatever the store reports |
| BookingModal.Modal.constructor | src/components/BookingModal.jsx:5-13 | the dialog starts with empty fields and no warning |
| BookingModal.Modal.IsBlockTaken | src/components/BookingModal.jsx:45-60 | the loop answers true iff the block is taken (false whenever the date or the start is empty) |
| BookingModal.Modal.SetTanggal | src/components/BookingModal.jsx:160-163 | choosing a date clears the start and the warning |
| BookingModal.Modal.HandleJamClick | src/components/BookingModal.jsx:62-70 | a taken block only sets the warning; otherwise the start is chosen and the warning cleared |
| BookingModal.Modal.HandleWhatsapp | src/components/BookingModal.jsx:72-116 | the missing-field, today-from-12:00 and taken-block guards apply in that order and each stops before anything is sent; otherwise the row is sent and the notification opens iff the insert succeeds, with the mapped warning otherwise |
| AdminWangsa.LoadSettings | src/pages/AdminWangsa.jsx:46-52 | with a row each field falls back on its own to "10:00", "00:00" and 2; with none the settings stay |
| AdminWangsa.DisplayDuration | src/pages/AdminWangsa.jsx:269 | the row's duration, else the settings', else 2; never 0 |
| AdminWangsa.GetJamSelesai | src/pages/AdminWangsa.jsx:162-166 | the number before ':' plus the duration with no wrap, or "NaN:00" |
| AdminWangsa.EndOfStoredRange | src/pages/AdminWangsa.jsx:162-166 | for a range starting with the label of h, the end shown is the label of h + duration |
| AdminWangsa.Filter | src/pages/AdminWangsa.jsx:169-177 | the result holds exactly the kept elements of the list and is no longer |
| AdminWangsa.FilterAppend | src/pages/AdminWangsa.jsx:169 | filtering keeps order: the filter of a concatenation is the concatenation of the filters |
| AdminWangsa.FilterKeepsAll | src/pages/AdminWangsa.jsx:169 | a filter that keeps everything returns the list unchanged |
| AdminWangsa.Matches | src/pages/AdminWangsa.jsx:170-172 | the search rule: the lower-cased name contains the lower-cased term, or the number or the date contains the term as typed; every reservation matches the empty term |
| AdminWangsa.FilteredBookings | src/pages/AdminWangsa.jsx:169-173 | a reservation is shown iff the lower-cased name contains the lower-cased term, or the number or the date contains the term |
| AdminWangsa.EmptySearchKeepsAll | src/pages/AdminWangsa.jsx:169-173 | an empty term shows the whole list in order |
| AdminWangsa.SearchKeepsOrder | src/pages/AdminWangsa.jsx:169-173 | the search result of a list is the results of its parts in order |
| AdminWangsa.TodayBookingsCount | src/pages/AdminWangsa.jsx:176-177 | the length of the list filtered to today's date, never more than the list; its meaning is TodayCountIsOccurrences |
| AdminWangsa.TodayCountIsOccurrences | src/pages/AdminWangsa.jsx:176-177 | today's count equals the number of reservations dated today |
| AdminWangsa.ConfirmLocal | src/pages/AdminWangsa.jsx:76 | same length; entries with the id become booked and all others are unchanged, in place |
| AdminWangsa.ConfirmIdempotent | src/pages/AdminWangsa.jsx:76 | confirming twice is confirming once |
| AdminWangsa.CancelLocal | src/pages/AdminWangsa.jsx:98 | an entry remains iff it was present and has another id |
| AdminWangsa.CancelRemovesExactly | src/pages/AdminWangsa.jsx:98 | one entry leaves per occurrence of the id, and the rest keep their order |
| AdminWangsa.FindBooking | src/pages/AdminWangsa.jsx:96 | none iff no entry has the id; otherwise the first entry with the id |
| AdminWangsa.ArchiveOf | src/pages/AdminWangsa.jsx:102-108 | the archive row copies name, number, date, range and room unchanged |
| AdminWangsa.ConfirmCommands | src/pages/AdminWangsa.jsx:78-88 | exactly the status update, followed by a refetch iff it failed, and nothing else |
| AdminWangsa.CancelCommands | src/pages/AdminWangsa.jsx:100-126 | the archive of the entry comes first and only once; the id is deleted, right after it, iff the archive succeeded; the trace ends with a refetch iff a step failed; no other command is sent |
| AdminWangsa.ArchiveBeforeDelete | src/pages/AdminWangsa.jsx:100-119 | the archive insert comes first, copies name, number, date, range and room unchanged, and any delete comes after it |
| AdminWangsa.NoDeleteWithoutArchive | src/pages/AdminWangsa.jsx:110-119 | a delete is issued iff the archive insert succeeded, and it deletes the cancelled id |
| AdminWangsa.AdminPanel.constructor | src/pages/AdminWangsa.jsx:5-14 | the screen starts with no reservations, the default settings and an empty search |
| AdminWangsa.AdminPanel.FetchData | src/pages/AdminWangsa.jsx:16-59 | a failed query stops the fetch and leaves the rest; otherwise the list is replaced and the settings reloaded with their fallbacks |
| AdminWangsa.AdminPanel.HandleConfirm | src/pages/AdminWangsa.jsx:73-89 | declined changes nothing; otherwise the list is confirmed locally and the confirmation steps are issued |
| AdminWangsa.AdminPanel.HandleCancel | src/pages/AdminWangsa.jsx:91-127 | declined changes nothing; otherwise the id leaves the list and, when the entry was there, the archive-then-delete steps are issued |
| App.FindUpdate | src/App.jsx:36 | none iff no update has the id; otherwise the first update with the id |
| App.UpdateJadwal | src/App.jsx:34-39 | same length; each room is merged with the update list |
| App.UpdateJadwalMeaning | src/App.jsx:34-39 | every field but the slots is kept; a room with no update is unchanged; a room with updates takes the first one's slots |
| App.FirstUpdateUnique | src/App.jsx:36 | the first update for an id is the one found |
| App.UpdateJadwalIdempotent | src/App.jsx:34-39 | merging the same updates twice is merging once |
| Consistency.ModalRowReadByPage | src/components/BookingModal.jsx:91-98 | a modal reservation reads back on the booking page as its start with two hours |
| Consistency.ModalRowBlocksPage | src/pages/BookingPage.jsx:77-85 | a modal reservation keeps the booking page from offering any overlapping start |
| Consistency.AdminShowsPageEnd | src/pages/AdminWangsa.jsx:162-166 | for a booking-page row, whose own duration is displayed (line 269), the admin screen shows the end the page stored |
| Consistency.AdminShowsModalEndIffDefault | src/pages/AdminWangsa.jsx:162-166 | for a modal row, which has no duration, the admin screen adds the settings' duration (line 269) and shows the stored end iff that duration is 2 |
| Consistency.InstalledSlots | src/App.jsx:24-39 | after the mount-time merge, room 1 carries the update's slots |
| Consistency.InstalledScheduleBlocks | src/App.jsx:24-31 | with that schedule, exactly the 09:00 and 10:00 blocks of 2026-01-01 are taken; the "used" 08:00 hour blocks nothing |
| Text.ParseHourLabel | src/pages/BookingPage.jsx:62 | `parseInt` reads back the hour of any label, whatever follows it |
| Text.HourLabelInjective | src/pages/BookingPage.jsx:78 | different hours have different labels |
| Text.RangeStartRoundTrip | src/pages/BookingPage.jsx:54 | the trimmed field before " - " of a stored range is its start label |
| Text.NumberOfLabelField | src/pages/AdminWangsa.jsx:163 | `Number` of the field before ':' of a label is its hour |
| Text.OrString | src/pages/BookingPage.jsx:43 | `s || d` on strings: the value unless missing or empty |
| Text.OrNat | src/pages/BookingPage.jsx:54 | `n || d` on counts: the value unless missing or 0 |

## Left out

- The hosted database, its queries, realtime channels and upserts are not modelled. Each operation takes the outcome the database would report as a parameter. The admin screen records the steps it issues as a trace.
- A refetch after a failed admin step is recorded in the trace but does not reload the list. `FetchData` models a reload separately.
- Browser effects are left out: `alert`, `confirm` (a parameter `approved`), opening the messaging deep link (the `notified` result), navigation, the body-scroll style and JSX rendering.
- The once-a-second clock and all `Date` and timezone arithmetic are left out. "Now" is the current hour of the day, `nowHour`. Each screen takes its own "today" string, because the booking page builds a local date and the modal and admin screen use the UTC date.
- `parseInt` and `Number` are modelled for plain decimal digit strings. Hexadecimal prefixes (`parseInt("0x1A")`), fractions and exponents (`Number("1.5")`, `Number("1e1")`), leading white space and signs are not modelled.
- `trim` and `toLowerCase` cover ASCII only.
- The room prop's `bookedSlots` may be undefined in the modal. The model always has a list, so that case is not modelled.
- `handleSaveSettings`, `formatTanggal`, the loading and saving flags and the cancelled-reservations list are left out. They are persistence, locale formatting or display only. `FetchData` keeps only whether the archive query failed.
- A fetch that returns no data is passed in as an empty list. The booking page reads only `data` from its reservations query and never its `error` (src/pages/BookingPage.jsx:53), so a failed query also gives `BookedFor(tanggal, [])`, and every in-range hour that has not started is offered. An exception thrown during that fetch leaves the previous booked list in place. The model takes the booked list as a parameter, so it does not model that case.
- `handleCancel` with an id missing from the list throws while reading the entry to archive. The model stops there and issues nothing.
- The login screen, navigation bar, hero, room cards, equipment page and gallery are not part of this model.
