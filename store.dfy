/** The records the screens write to the hosted database and the outcomes
    they read back. The database itself is not modelled: every operation
    that talks to it takes the outcome it would report as a parameter. */
module Store {
  import opened Text

  /** A row written to `bookings` on insert (`durasiSewa` is `None` where
      the insert leaves `durasi_sewa` out). */
  datatype BookingRecord = BookingRecord(
    nama: string,
    whatsapp: string,
    tanggal: string,
    jam: string,
    status: string,
    roomId: int,
    durasiSewa: Option<nat>)

  /** The `studio_settings` row as read: each field may be null. */
  datatype SettingsRow = SettingsRow(jamBuka: Option<string>, jamTutup: Option<string>, durasiSewa: Option<nat>)

  /** What an awaited insert reports: success, an `{ error }` result with
      its code and message, or a thrown exception. */
  datatype InsertOutcome = InsertOk | InsertError(code: string, message: string) | InsertThrew

  /** What an awaited update, insert or delete reports to the admin screen. */
  datatype StepOutcome = StepOk | StepFailed(message: string)

  const Pending := "pending"
  const Booked := "booked"

  /** Reservations that occupy their slot. */
  predicate Occupies(status: string)
  {
    status == Pending || status == Booked
  }
}
