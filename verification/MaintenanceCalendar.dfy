/** `maintenance_calendar` (ops/installer_policy.py): the calendar expression of one
    maintenance task, and the minutes at which it fires. */
module MaintenanceCalendar {
  import opened Wrappers

  datatype CalendarError = IntervalNotAllowed | OffsetOutsideInterval

  datatype Outcome = Emitted(calendar: Calendar) | Refused(error: CalendarError)

  /** `[Day] *-*-* hour[/step]:minute:00`, with Monday as day 0. */
  datatype Calendar = Calendar(day: Option<nat>, hour: nat, step: Option<nat>, minute: nat)

  const MAINTENANCE_INTERVALS: seq<nat> := [1, 2, 3, 4, 6, 8, 12, 24, 168]
  const DAY := 24 * 60
  const WEEK := 7 * 24 * 60

  predicate Allowed(hours: nat) { hours in MAINTENANCE_INTERVALS }

  /** The offset given, or one drawn from the digest of the task's name. */
  function Offset(hours: nat, digest: nat, given: Option<int>): int
    requires hours > 0
  {
    if given.Some? then given.value else digest % (hours * 60)
  }

  function Emit(hours: nat, digest: nat, given: Option<int>): Outcome {
    if !Allowed(hours) then Refused(IntervalNotAllowed)
    else
      var offset := Offset(hours, digest, given);
      if !(0 <= offset < hours * 60) then Refused(OffsetOutsideInterval)
      else
        var day, minuteOfDay := offset / DAY, offset % DAY;
        var hour, minute := minuteOfDay / 60, minuteOfDay % 60;
        if hours == 168 then Emitted(Calendar(Some(day), hour, None, minute))
        else if hours == 24 then Emitted(Calendar(None, hour, None, minute))
        else Emitted(Calendar(None, hour, Some(hours), minute))
  }

  /** systemd's reading of the expression at minute `t`, counted from midnight on a Monday:
      `h/s` stands for h, h + s, h + 2s and so on within the day. */
  predicate Fires(c: Calendar, t: nat) {
    var minuteOfDay := t % DAY;
    && (c.day.Some? ==> t % WEEK / DAY == c.day.value)
    && minuteOfDay % 60 == c.minute
    && (if c.step.Some? && c.step.value > 0
        then c.hour <= minuteOfDay / 60 && (minuteOfDay / 60 - c.hour) % c.step.value == 0
        else minuteOfDay / 60 == c.hour)
  }

  /** An expression is emitted exactly for an allowed interval and an offset within it, and
      a derived offset always is. */
  lemma EmittedExactly(hours: nat, digest: nat, given: Option<int>)
    ensures Emit(hours, digest, given).Emitted? <==>
              Allowed(hours) && (given.Some? ==> 0 <= given.value < hours * 60)
  {
  }

  // ---------------------------------------------------------------- division

  lemma Multiples(d: int, n: nat)
    ensures d >= 1 ==> d * n >= n
    ensures d <= -1 ==> d * n + n <= 0
  {
    if d >= 1 {
      assert (d - 1) * n >= 0;
    }
    if d <= -1 {
      assert (-d - 1) * n >= 0;
    }
  }

  lemma Quotient(a: nat, n: nat, q: nat, r: nat)
    requires n > 0 && a == q * n + r && r < n
    ensures a / n == q && a % n == r
  {
    assert a == a / n * n + a % n;
    assert (a / n - q) * n == r - a % n;
    Multiples(a / n - q, n);
  }

  /** Counting modulo a divisor of the day, or of the week, may start over each day or week. */
  lemma DivisorStartsOver(t: nat, n: nat, k: nat)
    requires n > 0 && k > 0
    ensures n * k > 0 && t % (n * k) % n == t % n
  {
    var whole := n * k;
    assert whole > 0;
    var m := t % whole;
    var q := t / whole * k + m / n;
    assert t == t / whole * whole + m;
    assert t / whole * whole == t / whole * k * n;
    assert m == m / n * n + m % n;
    assert t == q * n + m % n;
    Quotient(t, n, q, m % n);
  }

  /** Minutes are equal exactly when hour and minute of the hour are. */
  lemma HourAndMinute(x: nat, y: nat)
    ensures x == y <==> x / 60 == y / 60 && x % 60 == y % 60
  {
  }

  /** An hour is in the steps from `first` exactly when it leaves `first` modulo the step. */
  lemma InSteps(h: nat, first: nat, step: nat)
    requires first < step
    ensures h % step == first <==> first <= h && (h - first) % step == 0
  {
    assert h == h / step * step + h % step;
    if h % step == first {
      Quotient(h - first, step, h / step, 0);
    }
    if first <= h && (h - first) % step == 0 {
      assert h - first == (h - first) / step * step;
      Quotient(h, step, (h - first) / step, first);
    }
  }

  /** Minutes modulo an interval of whole hours. */
  lemma ModuloHours(m: nat, hours: nat)
    requires hours > 0
    ensures m % (hours * 60) == m / 60 % hours * 60 + m % 60
  {
    var h := m / 60;
    assert h == h / hours * hours + h % hours;
    assert h * 60 == h / hours * hours * 60 + h % hours * 60;
    assert h / hours * hours * 60 == h / hours * (hours * 60);
    assert h % hours * 60 <= (hours - 1) * 60;
    Quotient(m, hours * 60, h / hours, h % hours * 60 + m % 60);
  }

  /** The steps of an hourly form within one day. */
  lemma HourlyWithinDay(hours: nat, offset: nat, m: nat)
    requires hours > 0 && offset < hours * 60
    ensures m % (hours * 60) == offset <==>
              m % 60 == offset % 60 && offset / 60 <= m / 60 && (m / 60 - offset / 60) % hours == 0
  {
    ModuloHours(m, hours);
    HourAndMinute(m / 60 % hours * 60 + m % 60, offset);
    InSteps(m / 60, offset / 60, hours);
  }

  /** The three forms, before any of them is written out. */
  function Form(hours: nat, offset: nat): Calendar {
    Calendar(if hours == 168 then Some(offset / DAY) else None, offset % DAY / 60,
             if hours == 168 || hours == 24 then None else Some(hours), offset % DAY % 60)
  }

  lemma EmittedForm(hours: nat, digest: nat, given: Option<int>)
    requires Emit(hours, digest, given).Emitted?
    ensures hours in [1, 2, 3, 4, 6, 8, 12, 24, 168] && 0 <= Offset(hours, digest, given) < hours * 60
    ensures Emit(hours, digest, given).calendar == Form(hours, Offset(hours, digest, given))
  {
  }

  lemma FormFires(hours: nat, offset: nat, t: nat)
    requires hours in [1, 2, 3, 4, 6, 8, 12, 24, 168] && offset < hours * 60
    ensures Fires(Form(hours, offset), t) <==> t % (hours * 60) == offset
  {
    if hours == 168 {
      WeeklyForm(offset, t);
    } else if hours == 24 {
      HourAndMinute(t % DAY, offset);
    } else {
      DayStartsOver(hours, t);
      HourlyWithinDay(hours, offset, t % DAY);
    }
  }

  /** The expression fires at exactly the minutes congruent to the offset modulo the
      interval, counted from midnight, or from Monday for the weekly form. */
  lemma FiresAtTheOffset(hours: nat, digest: nat, given: Option<int>, t: nat)
    requires Emit(hours, digest, given).Emitted?
    ensures Fires(Emit(hours, digest, given).calendar, t) <==> t % (hours * 60) == Offset(hours, digest, given)
  {
    hide Emit, Form, Fires;
    EmittedForm(hours, digest, given);
    FormFires(hours, Offset(hours, digest, given), t);
  }

  lemma DayStartsOver(hours: nat, t: nat)
    requires hours in [1, 2, 3, 4, 6, 8, 12]
    ensures t % DAY % (hours * 60) == t % (hours * 60)
  {
    var k := 24 / hours;
    assert hours * 60 * k == DAY;
    DivisorStartsOver(t, hours * 60, k);
  }

  lemma WeeklyForm(offset: nat, t: nat)
    requires offset < WEEK
    ensures t % WEEK == offset <==>
              t % WEEK / DAY == offset / DAY && t % DAY % 60 == offset % DAY % 60 && t % DAY / 60 == offset % DAY / 60
  {
    DivisorStartsOver(t, DAY, 7);
    HourAndMinute(t % DAY, offset % DAY);
    assert t % WEEK == t % WEEK / DAY * DAY + t % WEEK % DAY;
    assert offset == offset / DAY * DAY + offset % DAY;
  }

  /** After each firing the next one is exactly one interval later, across midnight and the
      end of the week too. */
  lemma FiringsAreOneIntervalApart(hours: nat, digest: nat, given: Option<int>, t: nat, u: nat)
    requires Emit(hours, digest, given).Emitted? && Fires(Emit(hours, digest, given).calendar, t)
    ensures Fires(Emit(hours, digest, given).calendar, t + hours * 60)
    ensures t < u < t + hours * 60 ==> !Fires(Emit(hours, digest, given).calendar, u)
  {
    FiresAtTheOffset(hours, digest, given, t);
    FiresAtTheOffset(hours, digest, given, t + hours * 60);
    FiresAtTheOffset(hours, digest, given, u);
    ModuloSteps(t, u, hours * 60);
  }

  lemma ModuloSteps(t: nat, u: nat, n: nat)
    requires n > 0
    ensures (t + n) % n == t % n
    ensures t < u < t + n ==> u % n != t % n
  {
    assert t == t / n * n + t % n;
    Quotient(t + n, n, t / n + 1, t % n);
    assert u == u / n * n + u % n;
    assert (u / n - t / n) * n == (u - t) - (u % n - t % n);
    Multiples(u / n - t / n, n);
  }
}
