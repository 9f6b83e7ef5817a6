/**
 * Scheduling: post `i` of a batch is dated `(i * 2 + 1)` days after the moment the batch
 * is built and takes the time slot `["10:00", "13:00", "18:00", "20:00"][i % 4]`.
 * Instants are milliseconds, as `Date.now()` gives them.
 */
module Schedule {

  /** Milliseconds in a day. */
  const DayMs: nat := 86400000

  const TimeSlots: seq<string> := ["10:00", "13:00", "18:00", "20:00"]

  /** How many days after the reference instant post `i` is dated. */
  function DayOffset(i: nat): (d: nat)
    ensures d % 2 == 1
  {
    i * 2 + 1
  }

  /** The instant post `i` is dated: always after the reference instant, on a whole number of days. */
  function ScheduledAt(now: int, i: nat): (t: int)
    ensures t > now
    ensures (t - now) % DayMs == 0
  {
    now + DayOffset(i) * DayMs
  }

  /** The time slot of post `i`. */
  function TimeSlot(i: nat): (r: string)
    ensures r in TimeSlots
  {
    TimeSlots[i % 4]
  }

  /** Posts `i` and `j` of one batch are `2 (j - i)` days apart; in particular consecutive posts two days. */
  lemma ScheduleSpacing(now: int, i: nat, j: nat)
    requires i <= j
    ensures ScheduledAt(now, j) - ScheduledAt(now, i) == 2 * (j - i) * DayMs
    ensures i < j ==> ScheduledAt(now, i) < ScheduledAt(now, j)
  {
  }

  /** The slot sequence repeats with period four. */
  lemma TimeSlotPeriodic(i: nat)
    ensures TimeSlot(i + 4) == TimeSlot(i)
  {
  }

  /** Any four consecutive posts get four different slots. */
  lemma TimeSlotsDistinctWithinFour(i: nat, j: nat)
    requires i < j < i + 4
    ensures TimeSlot(i) != TimeSlot(j)
  {
  }
}
