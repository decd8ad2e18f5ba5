/**
 * BackgroundDatabaseBackupService: the schedule of the automated backups.
 *
 * The service keeps one piece of state, the start time of the next run. It
 * is set once from the configured time of day (GetDateTime) and moved
 * forward by whole poll intervals until it is no longer in the past
 * (CalculateNextRunDate). Each iteration of the worker loop runs a backup
 * when that time has come, then reschedules and sleeps until the next run.
 *
 * Every DateTime.Now reading is a parameter; instants are whole
 * milliseconds since 0001-01-01 (DateTime.Ticks / 10000).
 */
module Scheduler {
  import opened Common
  import opened Text
  import opened Models
  import opened Runner

  // ---------------------------------------------------------------------
  // Calendar
  // ---------------------------------------------------------------------

  /** A local DateTime: calendar date and time of day, to the millisecond. */
  datatype DateTime = DateTime(year: int, month: int, day: int, hour: int, minute: int, second: int, millisecond: int)

  predicate IsLeapYear(year: int) {
    year % 4 == 0 && (year % 100 != 0 || year % 400 == 0)
  }

  function DaysInMonth(year: int, month: int): int
    requires 1 <= month <= 12
  {
    if month == 2 then (if IsLeapYear(year) then 29 else 28)
    else if month == 4 || month == 6 || month == 9 || month == 11 then 30
    else 31
  }

  /** The components new DateTime(...) accepts without throwing ArgumentOutOfRangeException. */
  predicate ValidDateTime(d: DateTime) {
    && 1 <= d.year <= 9999 && 1 <= d.month <= 12 && 1 <= d.day <= DaysInMonth(d.year, d.month)
    && 0 <= d.hour < 24 && 0 <= d.minute < 60 && 0 <= d.second < 60 && 0 <= d.millisecond < 1000
  }

  function DaysBeforeYear(year: int): int
    requires year >= 1
  {
    var y := year - 1;
    365 * y + y / 4 - y / 100 + y / 400
  }

  function DaysBeforeMonth(year: int, month: int): int
    requires 1 <= month <= 12
  {
    if month == 1 then 0 else DaysBeforeMonth(year, month - 1) + DaysInMonth(year, month - 1)
  }

  const MillisecondsPerSecond: int := 1000
  const MillisecondsPerMinute: int := 60 * MillisecondsPerSecond
  const MillisecondsPerHour: int := 60 * MillisecondsPerMinute
  const MillisecondsPerDay: int := 24 * MillisecondsPerHour

  /** The instant of a valid DateTime, in milliseconds since 0001-01-01 00:00. */
  function Instant(d: DateTime): int
    requires ValidDateTime(d)
  {
    (DaysBeforeYear(d.year) + DaysBeforeMonth(d.year, d.month) + d.day - 1) * MillisecondsPerDay
    + d.hour * MillisecondsPerHour + d.minute * MillisecondsPerMinute + d.second * MillisecondsPerSecond + d.millisecond
  }

  // ---------------------------------------------------------------------
  // GetDateTime
  // ---------------------------------------------------------------------

  /** units.ElementAtOrDefault(k) as int.TryParse sees it: a missing piece is null, which fails like "". */
  function ElementOrEmpty(units: seq<string>, k: nat): string
  {
    if k < |units| then units[k] else ""
  }

  /**
   * GetDateTime(dayValue, timeValue): a blank time is the current moment;
   * otherwise today's date (or day dayValue of this month, when that parses
   * to a non-zero number) at the time "hh:mm:ss", each missing or
   * unparsable field counting as 0. None when new DateTime(...) throws.
   */
  function GetDateTime(dayValue: string, timeValue: string, now: DateTime): (r: Option<DateTime>)
    requires ValidDateTime(now)
    ensures IsNullOrWhiteSpace(timeValue) ==> r == Some(now)
    ensures r.Some? ==> ValidDateTime(r.value) && r.value.year == now.year && r.value.month == now.month
    ensures !IsNullOrWhiteSpace(timeValue) && r.Some? ==>
              && r.value.millisecond == 0
              && r.value.day == (if ParseInt32OrZero(dayValue) == 0 then now.day else ParseInt32OrZero(dayValue))
  {
    if IsNullOrWhiteSpace(timeValue) then Some(now)
    else
      var units := Split(timeValue, {':'});
      var d := ClockDate(dayValue, ParseInt32OrZero(ElementOrEmpty(units, 0)), ParseInt32OrZero(ElementOrEmpty(units, 1)),
                         ParseInt32OrZero(ElementOrEmpty(units, 2)), now);
      if ValidDateTime(d) then Some(d) else None
  }

  /**
   * new DateTime(now.Year, now.Month, dd, hh, mm, ss), where dd is dayValue
   * as int.TryParse reads it, or today's day when that gives 0.
   */
  function ClockDate(dayValue: string, hh: int, mm: int, ss: int, now: DateTime): DateTime
  {
    var dd := ParseInt32OrZero(dayValue);
    DateTime(now.year, now.month, if dd == 0 then now.day else dd, hh, mm, ss, 0)
  }

  /** A two-digit field such as "07", as a StartTime writes hours, minutes and seconds. */
  function TwoDigits(n: int): (s: string)
    requires 0 <= n < 100
    ensures |s| == 2 && AllDigits(s)
  {
    [DigitChar(n / 10), DigitChar(n % 10)]
  }

  lemma TwoDigitsParse(n: int)
    requires 0 <= n < 100
    ensures ParseInt32(TwoDigits(n)) == Some(n)
    ensures NoneIn(TwoDigits(n), {':'}) && !IsWhiteSpace(TwoDigits(n)[0])
  {
    var s := TwoDigits(n);
    assert TrimNumberWhite(s) == s;
    assert s[..1][..0] == [];
    assert DigitsValue(s[..1]) == n / 10;
    assert s[..|s| - 1] == s[..1];
  }

  /** A well-formed "hh:mm:ss" start time is today at that time. */
  lemma GetDateTimeReadsClockTime(h: int, m: int, s: int, now: DateTime)
    requires ValidDateTime(now)
    requires 0 <= h < 24 && 0 <= m < 60 && 0 <= s < 60
    ensures GetDateTime("", TwoDigits(h) + ":" + TwoDigits(m) + ":" + TwoDigits(s), now)
         == Some(DateTime(now.year, now.month, now.day, h, m, s, 0))
  {
    var text := TwoDigits(h) + ":" + TwoDigits(m) + ":" + TwoDigits(s);
    TwoDigitsParse(h);
    TwoDigitsParse(m);
    TwoDigitsParse(s);
    assert !IsWhiteSpace(text[0]);
    SplitWithoutSeparator(TwoDigits(s), {':'});
    SplitAtSeparator(TwoDigits(m), ':', TwoDigits(s), {':'});
    assert text == TwoDigits(h) + [':'] + (TwoDigits(m) + [':'] + TwoDigits(s));
    SplitAtSeparator(TwoDigits(h), ':', TwoDigits(m) + [':'] + TwoDigits(s), {':'});
    assert Split(text, {':'}) == [TwoDigits(h), TwoDigits(m), TwoDigits(s)];
  }

  /** "hh:mm" leaves out the seconds, which then count as 0. */
  lemma GetDateTimeMissingSeconds(h: int, m: int, now: DateTime)
    requires ValidDateTime(now)
    requires 0 <= h < 24 && 0 <= m < 60
    ensures GetDateTime("", TwoDigits(h) + ":" + TwoDigits(m), now)
         == Some(DateTime(now.year, now.month, now.day, h, m, 0, 0))
  {
    var text := TwoDigits(h) + ":" + TwoDigits(m);
    TwoDigitsParse(h);
    TwoDigitsParse(m);
    assert !IsWhiteSpace(text[0]);
    SplitWithoutSeparator(TwoDigits(m), {':'});
    assert text == TwoDigits(h) + [':'] + TwoDigits(m);
    SplitAtSeparator(TwoDigits(h), ':', TwoDigits(m), {':'});
    assert Split(text, {':'}) == [TwoDigits(h), TwoDigits(m)];
  }

  /**
   * "a:b:c", possibly followed by further ':'-separated pieces that are
   * ignored: the hour, minute and second are the pieces as int.TryParse reads
   * them (0 when it rejects one), and there is a result exactly when those
   * make a valid date.
   */
  lemma GetDateTimeThreeFields(dayValue: string, a: string, b: string, c: string, rest: string, now: DateTime)
    requires ValidDateTime(now)
    requires NoneIn(a, {':'}) && NoneIn(b, {':'}) && NoneIn(c, {':'})
    requires rest == [] || rest[0] == ':'
    ensures var d := ClockDate(dayValue, ParseInt32OrZero(a), ParseInt32OrZero(b), ParseInt32OrZero(c), now);
            GetDateTime(dayValue, a + ":" + b + ":" + c + rest, now) == if ValidDateTime(d) then Some(d) else None
  {
    var text := a + ":" + b + ":" + c + rest;
    SplitThreePieces(a, b, c, rest);
    assert text[|a|] == ':' && !IsWhiteSpace(':');
  }

  /** The first three pieces of "a:b:c" followed by nothing or by ':' and more. */
  lemma SplitThreePieces(a: string, b: string, c: string, rest: string)
    requires NoneIn(a, {':'}) && NoneIn(b, {':'}) && NoneIn(c, {':'})
    requires rest == [] || rest[0] == ':'
    ensures var units := Split(a + ":" + b + ":" + c + rest, {':'});
            |units| >= 3 && units[0] == a && units[1] == b && units[2] == c
  {
    var tail := Split(c + rest, {':'});
    if rest == [] {
      SplitWithoutSeparator(c, {':'});
      assert c + rest == c;
    } else {
      SplitAtSeparator(c, ':', rest[1..], {':'});
      assert c + rest == c + [':'] + rest[1..];
    }
    assert tail[0] == c;
    SplitAtSeparator(b, ':', c + rest, {':'});
    assert b + ":" + (c + rest) == b + [':'] + (c + rest);
    SplitAtSeparator(a, ':', b + ":" + (c + rest), {':'});
    assert a + ":" + b + ":" + c + rest == a + [':'] + (b + ":" + (c + rest));
  }

  /** "a:b": the seconds are missing and count as 0. */
  lemma GetDateTimeTwoFields(dayValue: string, a: string, b: string, now: DateTime)
    requires ValidDateTime(now)
    requires NoneIn(a, {':'}) && NoneIn(b, {':'})
    ensures var d := ClockDate(dayValue, ParseInt32OrZero(a), ParseInt32OrZero(b), 0, now);
            GetDateTime(dayValue, a + ":" + b, now) == if ValidDateTime(d) then Some(d) else None
  {
    var text := a + ":" + b;
    assert text[|a|] == ':' && !IsWhiteSpace(':');
    SplitWithoutSeparator(b, {':'});
    SplitAtSeparator(a, ':', b, {':'});
    assert text == a + [':'] + b;
    assert Split(text, {':'}) == [a, b];
    assert ParseInt32OrZero("") == 0;
  }

  /** A non-blank time without ':' is the hour alone; minute and second count as 0. */
  lemma GetDateTimeOneField(dayValue: string, a: string, now: DateTime)
    requires ValidDateTime(now)
    requires NoneIn(a, {':'}) && !IsNullOrWhiteSpace(a)
    ensures var d := ClockDate(dayValue, ParseInt32OrZero(a), 0, 0, now);
            GetDateTime(dayValue, a, now) == if ValidDateTime(d) then Some(d) else None
  {
    SplitWithoutSeparator(a, {':'});
    assert ParseInt32OrZero("") == 0;
  }

  /** A piece int.TryParse rejects is read as "0". */
  function ZeroIfRejected(piece: string): (r: string)
    ensures ParseInt32OrZero(r) == ParseInt32OrZero(piece)
    ensures NoneIn(piece, {':'}) ==> NoneIn(r, {':'})
  {
    if ParseInt32(piece).None? then "0" else piece
  }

  /**
   * A field int.TryParse rejects counts as 0 rather than failing the whole
   * time: the result is that of the same time with each rejected field
   * written as "0".
   */
  lemma GetDateTimeBadFieldIsZero(dayValue: string, a: string, b: string, c: string, now: DateTime)
    requires ValidDateTime(now)
    requires NoneIn(a, {':'}) && NoneIn(b, {':'}) && NoneIn(c, {':'})
    ensures GetDateTime(dayValue, a + ":" + b + ":" + c, now)
         == GetDateTime(dayValue, ZeroIfRejected(a) + ":" + ZeroIfRejected(b) + ":" + ZeroIfRejected(c), now)
  {
    GetDateTimeThreeFields(dayValue, a, b, c, [], now);
    GetDateTimeThreeFields(dayValue, ZeroIfRejected(a), ZeroIfRejected(b), ZeroIfRejected(c), [], now);
    assert a + ":" + b + ":" + c + [] == a + ":" + b + ":" + c;
    assert ZeroIfRejected(a) + ":" + ZeroIfRejected(b) + ":" + ZeroIfRejected(c) + []
        == ZeroIfRejected(a) + ":" + ZeroIfRejected(b) + ":" + ZeroIfRejected(c);
  }

  /**
   * An hour outside 0..23, or a minute or second outside 0..59, makes
   * new DateTime(...) throw, whatever the other fields are.
   */
  lemma GetDateTimeRejectsOutOfRange(dayValue: string, timeValue: string, now: DateTime)
    requires ValidDateTime(now) && !IsNullOrWhiteSpace(timeValue)
    requires var units := Split(timeValue, {':'});
             var hh, mm, ss := ParseInt32OrZero(units[0]), ParseInt32OrZero(ElementOrEmpty(units, 1)),
                               ParseInt32OrZero(ElementOrEmpty(units, 2));
             !(0 <= hh < 24) || !(0 <= mm < 60) || !(0 <= ss < 60)
    ensures GetDateTime(dayValue, timeValue, now).None?
  {
    assert ElementOrEmpty(Split(timeValue, {':'}), 0) == Split(timeValue, {':'})[0];
  }

  // ---------------------------------------------------------------------
  // Rescheduling: specification
  // ---------------------------------------------------------------------

  /** How many intervals of step the reschedule loop adds to start before it reaches now. */
  function StepsToCatchUp(start: int, now: int, step: int): nat
    requires step > 0
  {
    if start >= now then 0 else (now - start + step - 1) / step
  }

  /** The start time the reschedule loop ends with. */
  function NextRun(start: int, now: int, step: int): int
    requires step > 0
  {
    start + StepsToCatchUp(start, now, step) * step
  }

  /**
   * The next run is not in the past, lies a whole number of intervals after
   * the old start, and is the first such time: one interval earlier is
   * already in the past (or it is the old start itself).
   */
  lemma NextRunIsFirstCatchUp(start: int, now: int, step: int)
    requires step > 0
    ensures var next := NextRun(start, now, step);
            && next >= now
            && next >= start
            && (next - start) % step == 0
            && (next == start || next - step < now)
  {
    var q := StepsToCatchUp(start, now, step);
    MultipleHasNoRemainder(q, step);
    if start < now {
      CeilingDivision(now - start, step);
    }
  }

  /** A whole number of intervals leaves no remainder. */
  lemma MultipleHasNoRemainder(q: nat, step: int)
    requires step > 0
    ensures (q * step) % step == 0
  {
    var d, r := (q * step) / step, (q * step) % step;
    assert q * step == d * step + r && 0 <= r < step;
    assert (q - d) * step == r by {
      assert (q - d) * step == q * step - d * step;
    }
    if q - d >= 1 {
      ProductAtLeast(q - d, step);
    } else if q - d <= -1 {
      ProductAtLeast(d - q, step);
    }
  }

  lemma ProductAtLeast(a: int, b: int)
    requires a >= 1 && b > 0
    ensures a * b >= b
  {
    assert a * b == (a - 1) * b + b;
    assert (a - 1) * b >= 0;
  }

  /** The rounded-up quotient of x by step covers x, and one interval fewer does not. */
  lemma CeilingDivision(x: int, step: int)
    requires x > 0 && step > 0
    ensures var q := (x + step - 1) / step;
            q * step >= x && q * step - step < x
  {
    var n := x + step - 1;
    var q := n / step;
    assert n == q * step + n % step;
  }

  /** No time earlier than the next run on the interval grid of start is past now. */
  lemma {:induction false} NextRunIsLeast(start: int, now: int, step: int, k: nat)
    requires step > 0
    requires k < StepsToCatchUp(start, now, step)
    ensures start + k * step < now
  {
    NextRunIsFirstCatchUp(start, now, step);
    var steps := StepsToCatchUp(start, now, step);
    assert start + (steps - 1) * step < now;
    assert k * step <= (steps - 1) * step;
  }

  /** A start that is not in the past is left where it is. */
  lemma NextRunKeepsFutureStart(start: int, now: int, step: int)
    requires step > 0 && start >= now
    ensures NextRun(start, now, step) == start
  {
  }

  /**
   * Where the reschedule loop leaves a start: unchanged when it is not in the
   * past, otherwise NextRun. The loop ends only in those two cases.
   */
  function CatchUp(start: int, now: int, step: int): (next: int)
    requires step > 0 || start >= now
    ensures next >= now && next >= start
    ensures start < now ==> next - now < step
    ensures step > 0 ==> next == NextRun(start, now, step)
  {
    if start >= now then start
    else
      NextRunIsFirstCatchUp(start, now, step);
      NextRun(start, now, step)
  }

  /** A grid point that is not in the past, reached without passing the next run, is the next run. */
  lemma CaughtUpAtFirstStep(start: int, now: int, step: int, k: nat)
    requires step > 0
    requires k <= StepsToCatchUp(start, now, step) && start + k * step >= now
    ensures k == StepsToCatchUp(start, now, step)
  {
    if k < StepsToCatchUp(start, now, step) {
      NextRunIsLeast(start, now, step, k);
    }
  }

  /**
   * StartTime "00:00:00", an interval of 60 minutes and the clock at 00:30
   * give 01:00 of the same day, not the current moment.
   */
  lemma HourlyScheduleScenario(year: int, month: int, day: int)
    requires ValidDateTime(DateTime(year, month, day, 0, 0, 0, 0))
    ensures NextRun(Instant(DateTime(year, month, day, 0, 0, 0, 0)), Instant(DateTime(year, month, day, 0, 30, 0, 0)),
                    60 * MillisecondsPerMinute)
         == Instant(DateTime(year, month, day, 1, 0, 0, 0))
  {
    var start := Instant(DateTime(year, month, day, 0, 0, 0, 0));
    var now := Instant(DateTime(year, month, day, 0, 30, 0, 0));
    assert now - start == 30 * MillisecondsPerMinute;
    assert StepsToCatchUp(start, now, 60 * MillisecondsPerMinute) == 1;
  }

  // ---------------------------------------------------------------------
  // The delay before the next iteration
  // ---------------------------------------------------------------------

  /** What Task.Delay(delay, token) does with a delay in milliseconds. */
  datatype DelayOutcome =
    | Waits(milliseconds: nat)  // sleeps that long (cancellable)
    | WaitsForever              // -1 ms is Timeout.InfiniteTimeSpan
    | ThrowsOutOfRange          // ArgumentOutOfRangeException

  /** The longest TimeSpan Task.Delay accepts, in milliseconds: UInt32.MaxValue - 1. */
  const MaxDelayMilliseconds: int := 0xFFFF_FFFE

  /** Task.Delay(TimeSpan, token): -1 ms waits forever; outside -1 .. MaxDelayMilliseconds it throws. */
  function TaskDelay(milliseconds: int): (outcome: DelayOutcome)
    ensures outcome.Waits? <==> 0 <= milliseconds <= MaxDelayMilliseconds
    ensures outcome.Waits? ==> outcome.milliseconds == milliseconds
    ensures outcome.WaitsForever? <==> milliseconds == -1
  {
    if milliseconds > MaxDelayMilliseconds then ThrowsOutOfRange
    else if milliseconds >= 0 then Waits(milliseconds)
    else if milliseconds == -1 then WaitsForever
    else ThrowsOutOfRange
  }

  /**
   * GetDelayTime as written: the rescheduled start minus a second, later
   * reading of the clock (BackgroundDatabaseBackupService.cs:84).
   */
  function DelayAsWritten(nextRun: int, nowDelay: int): int
  {
    nextRun - nowDelay
  }

  /**
   * Computed from the same clock reading as the reschedule, the delay is never
   * negative, and after a catch-up it is shorter than one interval, so
   * Task.Delay accepts it whenever the interval is within its limit.
   */
  lemma DelayFromOneReadingIsNonNegative(start: int, now: int, step: int)
    requires step > 0
    ensures DelayAsWritten(NextRun(start, now, step), now) >= 0
    ensures start < now ==> DelayAsWritten(NextRun(start, now, step), now) < step
    ensures TaskDelay(DelayAsWritten(NextRun(start, now, step), now)).Waits?
            <==> DelayAsWritten(NextRun(start, now, step), now) <= MaxDelayMilliseconds
  {
    NextRunIsFirstCatchUp(start, now, step);
  }

  /**
   * With two readings, a start that is not yet in the past at the reschedule
   * but is at the second reading gives a negative delay, and Task.Delay
   * throws outside the try of the worker loop.
   */
  lemma DelayFromTwoReadingsCanThrow(start: int, step: int)
    requires step > 0
    ensures var nowReschedule, nowDelay := start, start + 5;
            var next := NextRun(start, nowReschedule, step);
            && next == start
            && DelayAsWritten(next, nowDelay) == -5
            && TaskDelay(DelayAsWritten(next, nowDelay)) == ThrowsOutOfRange
            && TaskDelay(DelayUntil(next, nowDelay)) == Waits(0)
  {
  }

  /**
   * An interval longer than Task.Delay's limit (100000 minutes) makes the
   * first delay after a run too long: a start one millisecond in the past
   * moves one interval ahead, and Task.Delay throws outside the try.
   */
  lemma LongIntervalDelayThrows(now: int)
    ensures var step := 100000 * MillisecondsPerMinute;
            var next := NextRun(now - 1, now, step);
            && next == now - 1 + step
            && TaskDelay(DelayAsWritten(next, now)) == ThrowsOutOfRange
  {
    var step := 100000 * MillisecondsPerMinute;
    assert StepsToCatchUp(now - 1, now, step) == 1;
  }

  /**
   * The delay the worker should sleep: the time left until the next run, or
   * none when the second clock reading is already past it. Waking after it
   * is never early and, when the run is still ahead, exactly on time.
   */
  function DelayUntil(nextRun: int, nowDelay: int): (delay: nat)
    ensures nowDelay + delay >= nextRun
    ensures nextRun >= nowDelay ==> nowDelay + delay == nextRun
    ensures nextRun < nowDelay ==> delay == 0
    ensures TaskDelay(delay) == Waits(delay) <==> delay <= MaxDelayMilliseconds
  {
    if nextRun >= nowDelay then nextRun - nowDelay else 0
  }

  // ---------------------------------------------------------------------
  // The service
  // ---------------------------------------------------------------------

  class BackgroundDatabaseBackupService {
    const serviceConfig: HostedServiceConfig
    var startDateTime: int

    constructor (serviceConfig: HostedServiceConfig, start: int)
      ensures this.serviceConfig == serviceConfig && startDateTime == start
    {
      this.serviceConfig := serviceConfig;
      startDateTime := start;
    }

    /** The poll interval in milliseconds (AddMinutes(PollIntervalMinutes)). */
    function PollStep(): int
    {
      serviceConfig.pollIntervalMinutes * MillisecondsPerMinute
    }

    /**
     * The constructor's schedule set-up (BackgroundDatabaseBackupService.cs:35-36):
     * the start time of the configured StartTime today, then run now or
     * catch up with the clock. None when new DateTime(...) throws.
     */
    static method Create(serviceConfig: HostedServiceConfig, nowParse: DateTime, nowSchedule: DateTime)
      returns (service: Option<BackgroundDatabaseBackupService>)
      requires ValidDateTime(nowParse) && ValidDateTime(nowSchedule)
      requires var parsed := GetDateTime("", serviceConfig.startTime, nowParse);
               || serviceConfig.runOnStartUp || serviceConfig.pollIntervalMinutes > 0
               || parsed.None? || Instant(parsed.value) >= Instant(nowSchedule)
      ensures service.None? <==> GetDateTime("", serviceConfig.startTime, nowParse).None?
      ensures service.Some? ==>
                var start := Instant(GetDateTime("", serviceConfig.startTime, nowParse).value);
                && fresh(service.value)
                && service.value.serviceConfig == serviceConfig
                && service.value.startDateTime
                   == if serviceConfig.runOnStartUp then Instant(nowSchedule)
                      else CatchUp(start, Instant(nowSchedule), serviceConfig.pollIntervalMinutes * MillisecondsPerMinute)
    {
      var parsed := GetDateTime("", serviceConfig.startTime, nowParse);
      if parsed.None? {
        return None;
      }
      var s := new BackgroundDatabaseBackupService(serviceConfig, Instant(parsed.value));
      s.CalculateNextRunDate(serviceConfig.runOnStartUp, nowSchedule);
      service := Some(s);
    }

    /**
     * CalculateNextRunDate(runNow): the start becomes now, or moves forward
     * by whole poll intervals while it is before now. The loop ends only
     * when the interval is positive or the start is not in the past.
     */
    method CalculateNextRunDate(runNow: bool, now: DateTime)
      requires ValidDateTime(now)
      requires runNow || serviceConfig.pollIntervalMinutes > 0 || startDateTime >= Instant(now)
      modifies this
      ensures runNow ==> startDateTime == Instant(now)
      ensures !runNow ==> startDateTime == CatchUp(old(startDateTime), Instant(now), PollStep())
    {
      if runNow {
        startDateTime := Instant(now);
      } else {
        var current := Instant(now);
        ghost var k: nat := 0;
        if PollStep() > 0 {
          NextRunIsFirstCatchUp(startDateTime, current, PollStep());
        }
        while startDateTime < current
          invariant startDateTime == old(startDateTime) + k * PollStep()
          invariant startDateTime < current ==> PollStep() > 0
          invariant PollStep() > 0 ==> k <= StepsToCatchUp(old(startDateTime), current, PollStep())
          invariant PollStep() <= 0 ==> k == 0
          decreases current - startDateTime
        {
          assert k < StepsToCatchUp(old(startDateTime), current, PollStep());
          startDateTime := startDateTime + PollStep();
          k := k + 1;
        }
        if PollStep() > 0 {
          assert k == StepsToCatchUp(old(startDateTime), current, PollStep()) by {
            CaughtUpAtFirstStep(old(startDateTime), current, PollStep(), k);
          }
        }
      }
    }

    /**
     * GetDelayTime as written: reschedule against one clock reading, then the
     * time from a second reading to the next run. When the second reading is
     * not past the next run, Task.Delay waits for it up to its limit of
     * MaxDelayMilliseconds and throws above; with both readings the same, a
     * caught-up start leaves less than one interval. Otherwise the delay can
     * be negative (see DelayFromTwoReadingsCanThrow).
     */
    method GetDelayTime(nowReschedule: DateTime, nowDelay: DateTime) returns (delay: int)
      requires ValidDateTime(nowReschedule) && ValidDateTime(nowDelay)
      requires serviceConfig.pollIntervalMinutes > 0 || startDateTime >= Instant(nowReschedule)
      modifies this
      ensures startDateTime == CatchUp(old(startDateTime), Instant(nowReschedule), PollStep())
      ensures delay == DelayAsWritten(startDateTime, Instant(nowDelay))
      ensures Instant(nowDelay) <= startDateTime
              ==> TaskDelay(delay) == if delay <= MaxDelayMilliseconds then Waits(delay) else ThrowsOutOfRange
      ensures nowDelay == nowReschedule && old(startDateTime) < Instant(nowReschedule) ==> 0 <= delay < PollStep()
      ensures nowDelay == nowReschedule ==> (TaskDelay(delay).Waits? <==> delay <= MaxDelayMilliseconds)
    {
      CalculateNextRunDate(false, nowReschedule);
      delay := DelayAsWritten(startDateTime, Instant(nowDelay));
    }

    /**
     * GetDelayTime corrected: the same reschedule, then a sleep that is never
     * negative and never wakes before the next run (DelayUntil).
     */
    method GetClampedDelayTime(nowReschedule: DateTime, nowDelay: DateTime) returns (delay: nat)
      requires ValidDateTime(nowReschedule) && ValidDateTime(nowDelay)
      requires serviceConfig.pollIntervalMinutes > 0 || startDateTime >= Instant(nowReschedule)
      modifies this
      ensures startDateTime == CatchUp(old(startDateTime), Instant(nowReschedule), PollStep())
      ensures delay == DelayUntil(startDateTime, Instant(nowDelay))
      ensures Instant(nowDelay) + delay >= startDateTime
      ensures TaskDelay(delay) == if delay <= MaxDelayMilliseconds then Waits(delay) else ThrowsOutOfRange
    {
      CalculateNextRunDate(false, nowReschedule);
      delay := DelayUntil(startDateTime, Instant(nowDelay));
    }

    /**
     * One iteration of the worker loop (BackgroundDatabaseBackupService.cs:45-59
     * with DoWork, 63-78): run the "automated" backup when the start time has
     * come; a failure to set up the work is swallowed; then always
     * reschedule and compute the delay that Task.Delay is handed.
     */
    method ExecuteStep(runner: DatabaseBackupRunner, nowCheck: DateTime, workFault: Option<string>, cancelRequested: bool,
                       env: RunEnvironment, nowReschedule: DateTime, nowDelay: DateTime)
      returns (run: Option<seq<BackupResult>>, delay: int)
      requires ValidDateTime(nowCheck) && ValidDateTime(nowReschedule) && ValidDateTime(nowDelay)
      requires serviceConfig.pollIntervalMinutes > 0 || startDateTime >= Instant(nowReschedule)
      modifies this
      ensures run.Some? <==> old(startDateTime) <= Instant(nowCheck) && workFault.None? && !cancelRequested
      ensures run.Some? ==> run.value == CreateBackup(runner.config, "automated", env)
      ensures startDateTime == CatchUp(old(startDateTime), Instant(nowReschedule), PollStep())
      ensures delay == DelayAsWritten(startDateTime, Instant(nowDelay))
      ensures Instant(nowDelay) <= startDateTime
              ==> TaskDelay(delay) == if delay <= MaxDelayMilliseconds then Waits(delay) else ThrowsOutOfRange
      ensures nowDelay == nowReschedule && old(startDateTime) < Instant(nowReschedule) ==> 0 <= delay < PollStep()
      ensures nowDelay == nowReschedule ==> (TaskDelay(delay).Waits? <==> delay <= MaxDelayMilliseconds)
    {
      run := None;
      // try
      if startDateTime <= Instant(nowCheck) {
        // DoWork: a scope that cannot be created throws here, and the catch logs it
        if workFault.None? && !cancelRequested {
          var results := runner.CreateBackupAsync("automated", env);
          run := Some(results);
        }
      }
      delay := GetDelayTime(nowReschedule, nowDelay);
    }
  }
}
