/** hourly.go: the clock arithmetic. Instants and wall-clock stamps are seconds; a stamp
    stands for its fixed-width text, whose order StampOrder shows to be the same. */
module HourlyZone {
  import opened Rows
  import opened Strings

  const HOUR := 3600
  const DAY := 86400

  /** A time zone: how an instant is formatted, how a stamp is parsed (if at all), and the
      instant that time.Date gives for the wall-clock hour of an instant. Nothing is
      assumed of daylight saving rules: hours may be skipped or repeated. */
  datatype Zone = Zone(format: int -> int, parse: int -> Option<int>, hourOf: int -> int)

  /** What every zone has: an offset of less than a day. */
  ghost predicate ZoneValid(z: Zone) {
    forall t :: t - DAY < z.format(t) < t + DAY && z.hourOf(t) <= t + HOUR
  }

  /** A fixed offset from UTC. */
  ghost predicate IsFixed(z: Zone, offset: int) {
    && -DAY < offset < DAY
    && (forall t :: z.format(t) == t + offset && z.hourOf(t) == t - (t + offset) % HOUR)
    && (forall s :: z.parse(s) == Some(s - offset))
  }

  lemma FixedIsValid(z: Zone, offset: int)
    requires IsFixed(z, offset)
    ensures ZoneValid(z)
  {
  }

  /** parseHourlyStart: the stamp must parse, format back to itself, and be an exact hour. */
  function ParseHourlyStart(z: Zone, stamp: int): (r: Option<int>)
    ensures r.Some? ==> z.format(r.value) == stamp && stamp % HOUR == 0
  {
    match z.parse(stamp)
    case None => None
    case Some(t) => if z.format(t) != stamp || stamp % HOUR != 0 then None else Some(t)
  }

  /** The end of the window that starts at a stamp: one hour later, as the zone prints it. */
  function WindowEnd(z: Zone, stamp: int): Option<int> {
    match ParseHourlyStart(z, stamp)
    case None => None
    case Some(t) => Some(z.format(t + HOUR))
  }

  /** hourlyCutoff: windows end at least one full hour before the current one. */
  function Cutoff(z: Zone, now: int): int {
    z.hourOf(now) - HOUR
  }

  lemma CutoffIsAnHourBack(z: Zone, offset: int, now: int)
    requires IsFixed(z, offset)
    ensures Cutoff(z, now) + HOUR <= now < Cutoff(z, now) + 2 * HOUR
    ensures (Cutoff(z, now) + offset) % HOUR == 0
  {
  }

  // ---------- Fixed-width timestamps ----------

  /** A civil time with a four-digit year. */
  datatype Civil = Civil(year: nat, month: nat, day: nat, hour: nat, minute: nat, second: nat)

  predicate Formattable(c: Civil) {
    c.year < 10000 && c.month < 100 && c.day < 100 && c.hour < 100 && c.minute < 100 && c.second < 100
  }

  function Digit(n: nat): char
    requires n < 10
  {
    '0' + n as char
  }

  function Two(n: nat): (s: string)
    requires n < 100
    ensures |s| == 2
  {
    [Digit(n / 10), Digit(n % 10)]
  }

  /** The layout 2006-01-02 15:04:05. */
  function Format(c: Civil): (s: string)
    requires Formattable(c)
    ensures |s| == 19
  {
    Two(c.year / 100) + Two(c.year % 100) + "-" + Two(c.month) + "-" + Two(c.day) + " "
    + Two(c.hour) + ":" + Two(c.minute) + ":" + Two(c.second)
  }

  /** Chronological order. */
  predicate Earlier(a: Civil, b: Civil) {
    || a.year < b.year
    || (a.year == b.year
        && (|| a.month < b.month
            || (a.month == b.month
                && (|| a.day < b.day
                    || (a.day == b.day
                        && (|| a.hour < b.hour
                            || (a.hour == b.hour
                                && (|| a.minute < b.minute
                                    || (a.minute == b.minute && a.second < b.second)))))))))
  }

  /** Two two-digit fields decide the order unless they are equal. */
  lemma BeforeTwo(m: nat, n: nat, a: string, b: string)
    requires m < 100 && n < 100
    ensures Before(Two(m) + a, Two(n) + b) <==> m < n || (m == n && Before(a, b))
  {
  }

  /** A field followed by one separator. */
  lemma BeforeField(m: nat, n: nat, sep: string, a: string, b: string)
    requires m < 100 && n < 100
    ensures Before(Two(m) + (sep + a), Two(n) + (sep + b)) <==> m < n || (m == n && Before(a, b))
  {
    BeforeTwo(m, n, sep + a, sep + b);
    BeforeSamePrefix(sep, a, b);
  }

  function Tail4(c: Civil): string requires Formattable(c) { Two(c.second) + "" }
  function Tail3(c: Civil): string requires Formattable(c) { Two(c.minute) + (":" + Tail4(c)) }
  function Tail2(c: Civil): string requires Formattable(c) { Two(c.hour) + (":" + Tail3(c)) }
  function Tail1(c: Civil): string requires Formattable(c) { Two(c.day) + (" " + Tail2(c)) }
  function Tail0(c: Civil): string requires Formattable(c) { Two(c.month) + ("-" + Tail1(c)) }

  /** The order in which checkpoints compare timestamp strings is the order of time. */
  lemma StampOrder(a: Civil, b: Civil)
    requires Formattable(a) && Formattable(b)
    ensures Before(Format(a), Format(b)) <==> Earlier(a, b)
  {
    assert Format(a) == Two(a.year / 100) + (Two(a.year % 100) + ("-" + Tail0(a)));
    assert Format(b) == Two(b.year / 100) + (Two(b.year % 100) + ("-" + Tail0(b)));
    BeforeTwo(a.year / 100, b.year / 100, Two(a.year % 100) + ("-" + Tail0(a)), Two(b.year % 100) + ("-" + Tail0(b)));
    BeforeField(a.year % 100, b.year % 100, "-", Tail0(a), Tail0(b));
    BeforeField(a.month, b.month, "-", Tail1(a), Tail1(b));
    BeforeField(a.day, b.day, " ", Tail2(a), Tail2(b));
    BeforeField(a.hour, b.hour, ":", Tail3(a), Tail3(b));
    BeforeField(a.minute, b.minute, ":", Tail4(a), Tail4(b));
    BeforeTwo(a.second, b.second, "", "");
  }
}
