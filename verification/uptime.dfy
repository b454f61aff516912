/** Uptime: the difference of two wall-clock instants as a Python `timedelta`
    in normal form, and its split into days, hours, minutes and seconds with
    `divmod`, as the `ping` and `uptime` commands display it. */
module Uptime {
  import opened SessionStats

  const MicrosPerSecond: int := 1_000_000
  const SecondsPerMinute: int := 60
  const SecondsPerHour: int := 3600
  const SecondsPerDay: int := 86400

  /** A `timedelta` (days, seconds, microseconds). */
  datatype Delta = Delta(days: int, seconds: int, microseconds: int)

  /** The normal form Python keeps every `timedelta` in: only `days` may be
      negative, the other two parts are below the next unit. */
  predicate Normal(d: Delta)
  {
    0 <= d.seconds < SecondsPerDay && 0 <= d.microseconds < MicrosPerSecond
  }

  /** The length of a delta in microseconds. */
  function TotalMicros(d: Delta): int
  {
    (d.days * SecondsPerDay + d.seconds) * MicrosPerSecond + d.microseconds
  }

  /** The normal-form delta of a span of microseconds (floor division, as in
      Python, also for a negative span). */
  function DeltaOfMicros(us: int): (d: Delta)
    ensures Normal(d)
    ensures TotalMicros(d) == us
  {
    var wholeSeconds := us / MicrosPerSecond;
    Delta(wholeSeconds / SecondsPerDay, wholeSeconds % SecondsPerDay, us % MicrosPerSecond)
  }

  /** `now - start_time` for two instants. */
  function Difference(start: Instant, now: Instant): (d: Delta)
    ensures Normal(d)
    ensures TotalMicros(d) == now - start
  {
    DeltaOfMicros(now - start)
  }

  /** Floor division is determined by the bound on the remainder. */
  lemma DivModUnique(q: int, r: int, n: int)
    requires 0 < n && 0 <= r < n
    ensures (q * n + r) / n == q && (q * n + r) % n == r
  {
    var a := q * n + r;
    var k := a / n - q;
    assert a == (a / n) * n + a % n;
    assert k * n == (a / n) * n - q * n;
    assert k * n == r - a % n;
    if k >= 1 {
      MulAtLeast(k, n);
      assert false;
    } else if k <= -1 {
      MulAtLeast(-k, n);
      assert false;
    }
  }

  lemma MulAtLeast(k: int, n: int)
    requires k >= 1 && n > 0
    ensures k * n >= n
  {
    assert k * n == (k - 1) * n + n;
  }

  /** The normal form is unique: a normal delta is the one `DeltaOfMicros`
      builds from its length. */
  lemma DeltaOfTotal(d: Delta)
    requires Normal(d)
    ensures DeltaOfMicros(TotalMicros(d)) == d
  {
    var s := d.days * SecondsPerDay + d.seconds;
    DivModUnique(s, d.microseconds, MicrosPerSecond);
    DivModUnique(d.days, d.seconds, SecondsPerDay);
  }

  /** An uptime as it is displayed: days, hours, minutes, seconds. */
  datatype Clock = Clock(days: int, hours: int, minutes: int, seconds: int)

  /** Every part after the days is below the next unit. */
  predicate Bounded(c: Clock)
  {
    0 <= c.hours < 24 && 0 <= c.minutes < 60 && 0 <= c.seconds < 60
  }

  /** The number of whole seconds a clock reading stands for. */
  function ClockSeconds(c: Clock): int
  {
    c.days * SecondsPerDay + c.hours * SecondsPerHour + c.minutes * SecondsPerMinute + c.seconds
  }

  /** The display split: the days are the delta's days; its seconds are
      divided by 3600 into hours and a remainder, and the remainder by 60 into
      minutes and seconds. The microseconds are dropped. */
  function Split(d: Delta): (c: Clock)
    requires Normal(d)
    ensures Bounded(c)
    ensures c.days == d.days
    ensures ClockSeconds(c) == d.days * SecondsPerDay + d.seconds
  {
    var hours := d.seconds / SecondsPerHour;
    var remainder := d.seconds % SecondsPerHour;
    Clock(d.days, hours, remainder / SecondsPerMinute, remainder % SecondsPerMinute)
  }

  /** The uptime between two instants, split for display. It stands for the
      elapsed time rounded down to whole seconds. */
  function Elapsed(start: Instant, now: Instant): (c: Clock)
    ensures Bounded(c)
    ensures ClockSeconds(c) == (now - start) / MicrosPerSecond
  {
    Split(Difference(start, now))
  }

  /** A bounded clock reading is determined by the seconds it stands for, so
      the display of an uptime is unique. */
  lemma ClockUnique(a: Clock, b: Clock)
    requires Bounded(a) && Bounded(b)
    requires ClockSeconds(a) == ClockSeconds(b)
    ensures a == b
  {
    var ra := a.hours * SecondsPerHour + a.minutes * SecondsPerMinute + a.seconds;
    var rb := b.hours * SecondsPerHour + b.minutes * SecondsPerMinute + b.seconds;
    DivModUnique(a.days, ra, SecondsPerDay);
    DivModUnique(b.days, rb, SecondsPerDay);
    DivModUnique(a.hours, a.minutes * SecondsPerMinute + a.seconds, SecondsPerHour);
    DivModUnique(b.hours, b.minutes * SecondsPerMinute + b.seconds, SecondsPerHour);
    DivModUnique(a.minutes, a.seconds, SecondsPerMinute);
    DivModUnique(b.minutes, b.seconds, SecondsPerMinute);
  }

  /** A whole number of seconds after the start, the display round-trips:
      its parts add back up to the elapsed seconds, and days are `t / 86400`. */
  lemma ElapsedWholeSeconds(start: Instant, t: nat)
    ensures ClockSeconds(Elapsed(start, start + t * MicrosPerSecond)) == t
    ensures Elapsed(start, start + t * MicrosPerSecond).days == t / SecondsPerDay
  {
    DivModUnique(t, 0, MicrosPerSecond);
    var c := Elapsed(start, start + t * MicrosPerSecond);
    var r := c.hours * SecondsPerHour + c.minutes * SecondsPerMinute + c.seconds;
    DivModUnique(c.days, r, SecondsPerDay);
  }

  /** One day, two hours, three minutes and four seconds after the start the
      display reads 1d 2h 3m 4s. */
  lemma ElapsedExample(now: Instant)
    ensures Elapsed(now - (1 * 86400 + 2 * 3600 + 3 * 60 + 4) * MicrosPerSecond, now) == Clock(1, 2, 3, 4)
  {
    ElapsedWholeSeconds(now - 93784 * MicrosPerSecond, 93784);
    ClockUnique(Elapsed(now - 93784 * MicrosPerSecond, now), Clock(1, 2, 3, 4));
  }

  /** If the wall clock moved back by even one microsecond, the delta is
      negative and displays as minus one day plus almost a full day. */
  lemma ElapsedClockMovedBack(now: Instant)
    ensures Elapsed(now + 1, now) == Clock(-1, 23, 59, 59)
  {
    ClockUnique(Elapsed(now + 1, now), Clock(-1, 23, 59, 59));
  }

  /** What `ping` shows as uptime. */
  datatype UptimeText = Unknown | Known(clock: Clock)

  /** `ping`'s uptime: "Unknown" until the first ready signal. */
  function PingUptime(start: StartTime, now: Instant): (u: UptimeText)
    ensures u.Unknown? <==> start.Unset?
    ensures u.Known? ==> Bounded(u.clock) && ClockSeconds(u.clock) == (now - start.at) / MicrosPerSecond
  {
    match start
    case Unset => Unknown
    case StartedAt(at) => Known(Elapsed(at, now))
  }

  /** The reply of the `uptime` command: nothing at all before the first ready
      signal, otherwise the split uptime and the recorded start instant. */
  datatype UptimeReply = NoReply | UptimeEmbed(clock: Clock, startedAt: Instant)

  function UptimeCommand(start: StartTime, now: Instant): (r: UptimeReply)
    ensures r.NoReply? <==> start.Unset?
    ensures r.UptimeEmbed? ==> r.startedAt == start.at && Bounded(r.clock)
    ensures r.UptimeEmbed? ==> ClockSeconds(r.clock) == (now - start.at) / MicrosPerSecond
  {
    match start
    case Unset => NoReply
    case StartedAt(at) => UptimeEmbed(Elapsed(at, now), at)
  }

  /** The two copies of the split, in `ping` and in `uptime`, show the same
      reading at the same instant. */
  lemma PingAndUptimeAgree(start: StartTime, now: Instant)
    requires start.StartedAt?
    ensures PingUptime(start, now) == Known(UptimeCommand(start, now).clock)
  {
  }
}
