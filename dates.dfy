/** Calendar dates and timestamps as the workspace code formats them: `date.isoformat()`,
    `datetime.isoformat()`, `strftime("%Y-%m-%d %H:%M")` and the snapshot stamp
    `strftime("%Y-%m-%d_%H%M%S")`. The clock itself is never read: callers pass "now". */
module Dates {
  import opened Text

  datatype Date = Date(year: int, month: int, day: int)

  datatype DateTime = DateTime(date: Date, hour: int, minute: int, second: int, microsecond: int := 0)

  /** `n` in decimal, left-padded with zeros to at least `width` digits. */
  function Pad(n: nat, width: nat): (r: string)
    ensures |r| >= width
    ensures forall i :: 0 <= i < |r| ==> IsDigit(r[i])
  {
    if |NatToString(n)| >= width then NatToString(n) else "0" + Pad(n, width - 1)
  }

  function Field(n: int, width: nat): string {
    if n < 0 then "-" + Pad(-n, width) else Pad(n, width)
  }

  /** `date.isoformat()`: YYYY-MM-DD */
  function IsoDate(d: Date): (r: string)
    ensures |r| >= 10
  {
    Field(d.year, 4) + "-" + Field(d.month, 2) + "-" + Field(d.day, 2)
  }

  /** A date is written with digits and `-` only. */
  lemma IsoDateChars(d: Date)
    ensures forall i :: 0 <= i < |IsoDate(d)| ==> IsDigit(IsoDate(d)[i]) || IsoDate(d)[i] == '-'
  {
  }

  /** `datetime.isoformat()`: YYYY-MM-DDTHH:MM:SS, with .ffffff only when microseconds are set */
  function IsoDateTime(t: DateTime): string {
    IsoDate(t.date) + "T" + Field(t.hour, 2) + ":" + Field(t.minute, 2) + ":" + Field(t.second, 2)
    + (if t.microsecond != 0 then "." + Field(t.microsecond, 6) else "")
  }

  /** `datetime.strftime("%Y-%m-%d %H:%M")` */
  function MinuteStamp(t: DateTime): string {
    IsoDate(t.date) + " " + Field(t.hour, 2) + ":" + Field(t.minute, 2)
  }

  /** `datetime.strftime("%Y-%m-%d_%H%M%S")`, the archive snapshot stamp */
  function SnapshotStamp(t: DateTime): string {
    IsoDate(t.date) + "_" + Field(t.hour, 2) + Field(t.minute, 2) + Field(t.second, 2)
  }

  /** Python's tuple comparison `(a.month, a.day) < (b.month, b.day)`. */
  predicate MonthDayBefore(a: Date, b: Date) {
    a.month < b.month || (a.month == b.month && a.day < b.day)
  }
}
