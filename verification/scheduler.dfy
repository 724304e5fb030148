/** The timing of `daily_report` (bot.py:35-44) on an integer clock. Each
    round reads the wall clock, sleeps until the next 09:05:00, and then
    reports on the day before the clock reading taken BEFORE the sleep. */
module Scheduler {

  /** Microseconds in a day, the clock's resolution being Python's. */
  const DayMicros: int := 86_400_000_000

  /** 09:05:00.000000, in microseconds after midnight. */
  const TriggerMicros: int := (9 * 3600 + 5 * 60) * 1_000_000

  /** A wall-clock reading in the bot's time zone: a day number and the
      microseconds since that day's midnight. */
  datatype Instant = Instant(day: int, micros: int)

  predicate Valid(t: Instant)
  {
    0 <= t.micros < DayMicros
  }

  /** Microseconds since midnight of day 0. Python subtracts two readings
      in the same time zone by their wall-clock fields, which is the
      difference of their ticks. */
  function Ticks(t: Instant): int
  {
    t.day * DayMicros + t.micros
  }

  /** The 09:05:00 of day `d`. */
  function TriggerOn(d: int): Instant
  {
    Instant(d, TriggerMicros)
  }

  /** `target_time`: 09:05:00 today, moved to tomorrow when `now` has
      reached it. It is the earliest 09:05:00 strictly after `now`. */
  function NextTrigger(now: Instant): (target: Instant)
    requires Valid(now)
    ensures Valid(target) && target.micros == TriggerMicros
    ensures Ticks(now) < Ticks(target)
    ensures forall d :: Ticks(now) < Ticks(TriggerOn(d)) ==> Ticks(target) <= Ticks(TriggerOn(d))
  {
    var target := TriggerOn(now.day);
    TriggersApart(now);
    if Ticks(now) >= Ticks(target) then TriggerOn(now.day + 1) else target
  }

  /** A trigger before day `now.day` is over before `now` starts, and one
      after day `now.day + 1` comes after that day's trigger. */
  lemma TriggersApart(now: Instant)
    requires Valid(now)
    ensures forall d :: d < now.day ==> Ticks(TriggerOn(d)) < Ticks(now)
    ensures forall d :: d > now.day ==> Ticks(TriggerOn(now.day + 1)) <= Ticks(TriggerOn(d))
  {
    forall d | d < now.day ensures Ticks(TriggerOn(d)) < Ticks(now) {
      DaysApart(d, now.day);
    }
    forall d | d > now.day ensures Ticks(TriggerOn(now.day + 1)) <= Ticks(TriggerOn(d)) {
      if d > now.day + 1 {
        DaysApart(now.day + 1, d);
      }
    }
  }

  /** Earlier days start at least a day earlier. */
  lemma DaysApart(d: int, e: int)
    requires d < e
    ensures d * DayMicros + DayMicros <= e * DayMicros
  {
    assert e * DayMicros - d * DayMicros == (e - d) * DayMicros;
  }

  /** The time `daily_report` sleeps, in microseconds. */
  function Wait(now: Instant): (w: int)
    requires Valid(now)
    ensures 0 < w <= DayMicros
    ensures w == DayMicros <==> now.micros == TriggerMicros
  {
    Ticks(NextTrigger(now)) - Ticks(now)
  }

  /** The day `daily_report` reports on: `now - timedelta(days=1)`, with
      `now` read before the sleep. */
  function ReportedDay(now: Instant): int
  {
    now.day - 1
  }

  /** The report sent at 09:05 on day `NextTrigger(now).day` covers the
      day before that when the clock was read before 09:05, and the day
      two days before that otherwise. */
  lemma ReportLag(now: Instant)
    requires Valid(now)
    ensures now.micros < TriggerMicros ==> ReportedDay(now) == NextTrigger(now).day - 1
    ensures now.micros >= TriggerMicros ==> ReportedDay(now) == NextTrigger(now).day - 2
  {
  }

  /** The next round reads the clock after waking at `NextTrigger(prev)`
      and finishing its report that same day. */
  predicate NextRound(prev: Instant, now: Instant)
    requires Valid(prev)
  {
    Valid(now) && Ticks(NextTrigger(prev)) <= Ticks(now) && now.day == NextTrigger(prev).day
  }

  /** Once a round has read the clock after 09:05, every following round
      reports the day after the one before it: no day is skipped or
      repeated, each reported two days late. */
  lemma RoundsAdvance(prev: Instant, now: Instant)
    requires Valid(prev) && prev.micros >= TriggerMicros && NextRound(prev, now)
    ensures now.micros >= TriggerMicros
    ensures ReportedDay(now) == ReportedDay(prev) + 1
    ensures ReportedDay(now) == NextTrigger(now).day - 2
  {
    ReportLag(now);
  }

  /** A first round that reads the clock before 09:05 reports the same day
      as the round after it. */
  lemma EarlyStartRepeats(prev: Instant, now: Instant)
    requires Valid(prev) && prev.micros < TriggerMicros && NextRound(prev, now)
    ensures ReportedDay(now) == ReportedDay(prev)
  {
  }

  /** A bot started at 08:00 on day 10 sends the report on day 9 at 09:05
      on day 10, reads the clock again a second later, and sends the report
      on day 9 once more at 09:05 on day 11. */
  lemma EarlyStartExample()
    ensures NextRound(Instant(10, 8 * 3600 * 1_000_000), Instant(10, TriggerMicros + 1_000_000))
    ensures ReportedDay(Instant(10, 8 * 3600 * 1_000_000)) == 9
    ensures ReportedDay(Instant(10, TriggerMicros + 1_000_000)) == 9
    ensures NextTrigger(Instant(10, TriggerMicros + 1_000_000)).day == 11
  {
  }

  /** The day before the one the report is sent on, which the name
      `yesterday_date` describes: the sleep ends at the 09:05 of day
      `d + 1`, the first after `now`. */
  function WakeReportedDay(now: Instant): (d: int)
    requires Valid(now)
    ensures Ticks(TriggerOn(d)) <= Ticks(now) < Ticks(TriggerOn(d + 1))
    ensures NextTrigger(now) == TriggerOn(d + 1)
  {
    NextTrigger(now).day - 1
  }

  /** Reporting the day before the wake-up, consecutive rounds report
      consecutive days whenever the bot was started, each one day late. */
  lemma WakeRoundsAdvance(prev: Instant, now: Instant)
    requires Valid(prev) && NextRound(prev, now)
    ensures WakeReportedDay(now) == WakeReportedDay(prev) + 1
    ensures WakeReportedDay(now) == now.day
  {
    assert now.micros >= TriggerMicros;
  }

  /** At 09:06 the bot sleeps until 09:05 the next day, 23 hours and 59
      minutes; at 09:00 it sleeps five minutes. */
  lemma WaitExamples()
    ensures Wait(Instant(10, (9 * 3600 + 6 * 60) * 1_000_000)) == (23 * 3600 + 59 * 60) * 1_000_000
    ensures NextTrigger(Instant(10, (9 * 3600 + 6 * 60) * 1_000_000)) == TriggerOn(11)
    ensures Wait(Instant(10, 9 * 3600 * 1_000_000)) == 5 * 60 * 1_000_000
    ensures NextTrigger(Instant(10, 9 * 3600 * 1_000_000)) == TriggerOn(10)
  {
  }
}
