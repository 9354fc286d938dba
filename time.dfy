/** The two chrono timestamp types the service uses, kept opaque: only their
    identity matters to the model, not the calendar they encode. */
module Time {

  /** `chrono::NaiveDateTime`: a date and time without an offset, counted from the
      Unix epoch. */
  datatype NaiveDateTime = NaiveDateTime(ticks: int)

  /** `NaiveDateTime::default()` is the Unix epoch, 1970-01-01 00:00:00. */
  const DefaultNaiveDateTime: NaiveDateTime := NaiveDateTime(0)

  /** `chrono::DateTime<Utc>`: a naive date and time read in the UTC zone, whose offset
      is always zero and so carries no information. */
  datatype UtcDateTime = UtcDateTime(naive: NaiveDateTime)

  /** `DateTime<Utc>::naive_utc`: drops the (zero) offset. */
  function NaiveUtc(d: UtcDateTime): (n: NaiveDateTime)
    ensures AndUtc(n) == d
  {
    d.naive
  }

  /** `NaiveDateTime::and_utc`: reads a naive date and time as UTC. */
  function AndUtc(n: NaiveDateTime): (d: UtcDateTime)
    ensures d.naive == n
  {
    UtcDateTime(n)
  }

  lemma NaiveUtcAndUtcInverse(n: NaiveDateTime)
    ensures NaiveUtc(AndUtc(n)) == n
  {
  }
}
