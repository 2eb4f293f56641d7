/** Timestamps as time.Time marshals and reads them (section 5.6 of RFC 3339). */
module Rfc3339 {
  import opened Options
  import opened Digits

  // A time.Time as shown in its location: civil fields, and the zone's offset in seconds
  datatype Time = Time(year: int, month: nat, day: nat, hour: nat, minute: nat, second: nat,
                       nano: nat, offset: int)

  predicate LeapYear(y: int) {
    y % 4 == 0 && (y % 100 != 0 || y % 400 == 0)
  }

  function DaysIn(month: int, year: int): nat {
    if month == 2 then (if LeapYear(year) then 29 else 28)
    else if month == 4 || month == 6 || month == 9 || month == 11 then 30 else 31
  }

  // The fields are in range; those of every time.Time are
  predicate Valid(t: Time) {
    && 1 <= t.month <= 12 && 1 <= t.day <= DaysIn(t.month, t.year)
    && t.hour < 24 && t.minute < 60 && t.second < 60 && t.nano < 1_000_000_000
  }

  function DaysBeforeYear(y: int): int {
    365 * y + (y - 1) / 4 - (y - 1) / 100 + (y - 1) / 400
  }

  function DaysBeforeMonth(month: int, year: int): int {
    if month <= 1 then 0 else DaysBeforeMonth(month - 1, year) + DaysIn(month - 1, year)
  }

  // Days up to and including this one, on a line that runs through all years
  function DayNumber(year: int, month: int, day: int): int {
    DaysBeforeYear(year) + DaysBeforeMonth(month, year) + day
  }

  function DayNanos(t: Time): int {
    ((t.hour * 60 + t.minute) * 60 + t.second) * 1_000_000_000 + t.nano
  }

  const DAY_NANOS := 86_400_000_000_000

  // Nanoseconds of the instant on the UTC time line
  function Instant(t: Time): int {
    DayNumber(t.year, t.month, t.day) * DAY_NANOS + DayNanos(t) - t.offset * 1_000_000_000
  }

  /* ---------- writing ---------- */

  // The digits of a fraction without its trailing zeros
  function Trim(s: string): (r: string)
    ensures r <= s && forall i :: |r| <= i < |s| ==> s[i] == '0'
    ensures r == "" || r[|r| - 1] != '0'
  {
    if s != "" && s[|s| - 1] == '0' then Trim(s[..|s| - 1]) else s
  }

  function Fraction(nano: nat): string {
    if nano == 0 then "" else "." + Trim(Fixed(nano, 9, 10))
  }

  // Go truncates the offset to whole minutes, toward zero
  function ZoneMinutes(offset: int): int {
    if offset >= 0 then offset / 60 else -(-offset / 60)
  }

  function Zone(offset: int): string {
    if offset == 0 then "Z"
    else
      var z := ZoneMinutes(offset);
      var abs := if z < 0 then -z else z;
      [if z < 0 then '-' else '+'] + Fixed(abs / 60, 2, 10) + ":" + Fixed(abs % 60, 2, 10)
  }

  function Date(t: Time): string
    requires 0 <= t.year
  {
    Fixed(t.year, 4, 10) + "-" + Fixed(t.month, 2, 10) + "-" + Fixed(t.day, 2, 10)
  }

  function Clock(t: Time): string {
    Fixed(t.hour, 2, 10) + ":" + Fixed(t.minute, 2, 10) + ":" + Fixed(t.second, 2, 10)
  }

  // MarshalJSON refuses a year that is not four digits and a zone hour that is not two
  predicate Marshals(t: Time) {
    0 <= t.year <= 9999 && -86400 < t.offset < 86400
  }

  function Marshal(t: Time): Option<string> {
    if Marshals(t) then Some(Date(t) + "T" + Clock(t) + Fraction(t.nano) + Zone(t.offset)) else None
  }

  /* ---------- reading ---------- */

  function ReadIn(s: string, low: nat, high: nat): Option<nat> {
    var v := Read(s, 10);
    if v.Some? && low <= v.value <= high then Some(v.value) else None
  }

  function DigitRun(s: string): (n: nat)
    ensures n <= |s|
    ensures forall i :: 0 <= i < n ==> DigitValue(s[i], 10).Some?
    ensures n < |s| ==> DigitValue(s[n], 10).None?
  {
    if s != "" && DigitValue(s[0], 10).Some? then 1 + DigitRun(s[1..]) else 0
  }

  function Zeros(n: nat): (s: string)
    ensures |s| == n && forall i :: 0 <= i < n ==> s[i] == '0'
  {
    seq(n, i => '0')
  }

  // At most nine digits count
  function ReadNanos(digits: string): Option<nat> {
    if |digits| >= 9 then Read(digits[..9], 10) else Read(digits + Zeros(9 - |digits|), 10)
  }

  function ReadZone(s: string): Option<int> {
    if s == "Z" then Some(0)
    else if |s| != 6 || (s[0] != '+' && s[0] != '-') || s[3] != ':' then None
    else
      var hr, mm := ReadIn(s[1..3], 0, 23), ReadIn(s[4..6], 0, 59);
      if hr.None? || mm.None? then None
      else
        var offset := (hr.value * 60 + mm.value) * 60;
        Some(if s[0] == '-' then -offset else offset)
  }

  // What follows the seconds: an optional fraction, then the zone
  function ReadTail(s: string): Option<(nat, int)> {
    if |s| >= 2 && s[0] == '.' && DigitValue(s[1], 10).Some? then
      var n := DigitRun(s[1..]);
      var nano, zone := ReadNanos(s[1..1 + n]), ReadZone(s[1 + n..]);
      if nano.None? || zone.None? then None else Some((nano.value, zone.value))
    else
      var zone := ReadZone(s);
      if zone.None? then None else Some((0, zone.value))
  }

  function ReadDate(s: string): Option<(nat, nat, nat)> {
    if |s| != 10 || s[4] != '-' || s[7] != '-' then None
    else
      var year, month := ReadIn(s[0..4], 0, 9999), ReadIn(s[5..7], 1, 12);
      if year.None? || month.None? then None
      else
        var day := ReadIn(s[8..10], 1, DaysIn(month.value, year.value));
        if day.None? then None else Some((year.value, month.value, day.value))
  }

  function ReadClock(s: string): Option<(nat, nat, nat)> {
    if |s| != 8 || s[2] != ':' || s[5] != ':' then None
    else
      var hour, minute, second := ReadIn(s[0..2], 0, 23), ReadIn(s[3..5], 0, 59), ReadIn(s[6..8], 0, 59);
      if hour.None? || minute.None? || second.None? then None
      else Some((hour.value, minute.value, second.value))
  }

  function Parse(s: string): Option<Time> {
    if |s| < 19 || s[10] != 'T' then None
    else
      var date, clock, tail := ReadDate(s[..10]), ReadClock(s[11..19]), ReadTail(s[19..]);
      if date.None? || clock.None? || tail.None? then None
      else Some(Time(date.value.0, date.value.1, date.value.2, clock.value.0, clock.value.1, clock.value.2,
                     tail.value.0, tail.value.1))
  }

  /* ---------- reading what was written ---------- */

  lemma Powers()
    ensures Pow(10, 2) == 100 && Pow(10, 4) == 10_000 && Pow(10, 9) == 1_000_000_000
  {
    assert Pow(10, 3) == 1000;
    assert Pow(10, 5) == 100_000;
    assert Pow(10, 6) == 1_000_000;
    assert Pow(10, 7) == 10_000_000;
    assert Pow(10, 8) == 100_000_000;
  }

  lemma Two(n: int)
    requires 0 <= n < 100
    ensures Read(Fixed(n, 2, 10), 10) == Some(n)
  {
    Powers();
    ReadFixed(n, 2, 10);
  }

  lemma ReadZoneParts(sign: char, h: string, m: string, hour: nat, minute: nat)
    requires (sign == '+' || sign == '-') && |h| == 2 && |m| == 2
    requires Read(h, 10) == Some(hour) && Read(m, 10) == Some(minute)
    requires 0 <= hour < 24 && 0 <= minute < 60
    ensures ReadZone([sign] + h + ":" + m) ==
      Some(if sign == '-' then -(hour * 60 + minute) * 60 else (hour * 60 + minute) * 60)
  {
    var s := [sign] + h + ":" + m;
    assert s[1..3] == h && s[4..6] == m && s[0] == sign && s[3] == ':';
  }

  function SignedZone(sign: char, minutes: nat): string {
    [sign] + Fixed(minutes / 60, 2, 10) + ":" + Fixed(minutes % 60, 2, 10)
  }

  lemma ReadSignedZone(sign: char, minutes: nat)
    requires (sign == '+' || sign == '-') && minutes < 1440
    ensures ReadZone(SignedZone(sign, minutes)) == Some(if sign == '-' then -60 * minutes else 60 * minutes)
  {
    var h, m := minutes / 60, minutes % 60;
    Two(h);
    Two(m);
    ReadZoneParts(sign, Fixed(h, 2, 10), Fixed(m, 2, 10), h, m);
    assert h * 60 + m == minutes;
  }

  lemma ZoneText(offset: int)
    requires -86400 < offset < 86400
    ensures var z := ZoneMinutes(offset);
      && -1440 < z < 1440
      && Zone(offset) == (if offset == 0 then "Z" else if z < 0 then SignedZone('-', -z) else SignedZone('+', z))
  {
  }

  // The offset a reader recovers is the writer's, cut to whole minutes
  lemma ReadsAs(offset: int, text: string, z: int)
    requires -1440 < z < 1440 && z == ZoneMinutes(offset)
    requires text == (if offset == 0 then "Z" else if z < 0 then SignedZone('-', -z) else SignedZone('+', z))
    ensures ReadZone(text) == Some(z * 60)
  {
    if offset != 0 {
      if z < 0 { ReadSignedZone('-', -z); } else { ReadSignedZone('+', z); }
    }
  }

  lemma ZoneRoundTrip(offset: int)
    requires -86400 < offset < 86400
    ensures ReadZone(Zone(offset)) == Some(ZoneMinutes(offset) * 60)
  {
    ZoneText(offset);
    ReadsAs(offset, Zone(offset), ZoneMinutes(offset));
  }

  lemma {:induction false} DigitRunEnds(digits: string, rest: string)
    requires forall i :: 0 <= i < |digits| ==> DigitValue(digits[i], 10).Some?
    requires rest != "" && DigitValue(rest[0], 10).None?
    ensures DigitRun(digits + rest) == |digits|
  {
    if digits == "" {
      assert digits + rest == rest;
    } else {
      DigitRunEnds(digits[1..], rest);
      assert (digits + rest)[1..] == digits[1..] + rest;
    }
  }

  lemma {:induction false} ReadZeros(s: string)
    requires forall i :: 0 <= i < |s| ==> s[i] == '0'
    ensures Read(s, 10) == Some(0)
  {
    if s != "" { ReadZeros(s[..|s| - 1]); }
  }

  lemma TrimNonzero(s: string)
    requires Read(s, 10).Some? && Read(s, 10) != Some(0)
    ensures Trim(s) != ""
  {
    if Trim(s) == "" { ReadZeros(s); }
  }

  lemma ReadFraction(digits: string, zone: string)
    requires digits != "" && forall i :: 0 <= i < |digits| ==> DigitValue(digits[i], 10).Some?
    requires zone != "" && DigitValue(zone[0], 10).None?
    ensures var s := "." + digits + zone;
      |s| >= 2 && s[0] == '.' && DigitValue(s[1], 10).Some? && DigitRun(s[1..]) == |digits| &&
      s[1..1 + |digits|] == digits && s[1 + |digits|..] == zone
  {
    var s := "." + digits + zone;
    assert s[1] == digits[0];
    assert s[1..] == digits + zone;
    DigitRunEnds(digits, zone);
    assert s[1..1 + |digits|] == digits && s[1 + |digits|..] == zone;
  }

  lemma ReadTrimmed(full: string)
    requires |full| == 9
    ensures ReadNanos(Trim(full)) == Read(full, 10)
  {
    var digits := Trim(full);
    assert digits + Zeros(9 - |digits|) == full;
    if |digits| == 9 {
      assert digits[..9] == digits == full;
    }
  }

  lemma ReadTailParts(full: string, zone: string, nano: nat, offset: int)
    requires |full| == 9 && Read(full, 10) == Some(nano) && nano != 0
    requires forall i :: 0 <= i < 9 ==> DigitValue(full[i], 10).Some?
    requires zone != "" && DigitValue(zone[0], 10).None? && ReadZone(zone) == Some(offset)
    ensures ReadTail("." + Trim(full) + zone) == Some((nano, offset))
  {
    TrimNonzero(full);
    ReadFraction(Trim(full), zone);
    ReadTrimmed(full);
  }

  lemma ZoneStart(offset: int)
    ensures Zone(offset) != "" && Zone(offset)[0] in {'Z', '+', '-'}
  {
  }

  lemma TailRoundTrip(nano: nat, offset: int)
    requires nano < 1_000_000_000 && -86400 < offset < 86400
    ensures ReadTail(Fraction(nano) + Zone(offset)) == Some((nano, ZoneMinutes(offset) * 60))
  {
    ZoneRoundTrip(offset);
    ZoneStart(offset);
    var zone := Zone(offset);
    if nano == 0 {
      assert Fraction(nano) + zone == zone;
    } else {
      Powers();
      ReadFixed(nano, 9, 10);
      ReadTailParts(Fixed(nano, 9, 10), zone, nano, ZoneMinutes(offset) * 60);
    }
  }

  lemma DateSlices(y: string, mo: string, d: string, s: string)
    requires |y| == 4 && |mo| == |d| == 2 && s == y + "-" + mo + "-" + d
    ensures |s| == 10 && s[4] == '-' && s[7] == '-' && s[0..4] == y && s[5..7] == mo && s[8..10] == d
  {
  }

  lemma ReadDateParts(y: string, mo: string, d: string, year: nat, month: nat, day: nat)
    requires |y| == 4 && |mo| == |d| == 2
    requires Read(y, 10) == Some(year) && Read(mo, 10) == Some(month) && Read(d, 10) == Some(day)
    requires 0 <= year <= 9999 && 1 <= month <= 12 && 1 <= day <= DaysIn(month, year)
    ensures ReadDate(y + "-" + mo + "-" + d) == Some((year, month, day))
  {
    DateSlices(y, mo, d, y + "-" + mo + "-" + d);
  }

  lemma ClockSlices(h: string, mi: string, sec: string, s: string)
    requires |h| == |mi| == |sec| == 2 && s == h + ":" + mi + ":" + sec
    ensures |s| == 8 && s[2] == ':' && s[5] == ':' && s[0..2] == h && s[3..5] == mi && s[6..8] == sec
  {
  }

  lemma ReadClockParts(h: string, mi: string, sec: string, hour: nat, minute: nat, second: nat)
    requires |h| == |mi| == |sec| == 2
    requires Read(h, 10) == Some(hour) && Read(mi, 10) == Some(minute) && Read(sec, 10) == Some(second)
    requires 0 <= hour < 24 && 0 <= minute < 60 && 0 <= second < 60
    ensures ReadClock(h + ":" + mi + ":" + sec) == Some((hour, minute, second))
  {
    ClockSlices(h, mi, sec, h + ":" + mi + ":" + sec);
  }

  lemma ParseParts(t: Time, date: string, clock: string, tail: string)
    requires |date| == 10 && |clock| == 8
    requires ReadDate(date) == Some((t.year, t.month, t.day))
    requires ReadClock(clock) == Some((t.hour, t.minute, t.second))
    requires ReadTail(tail) == Some((t.nano, t.offset))
    ensures Parse(date + "T" + clock + tail) == Some(t)
  {
    var s := date + "T" + clock + tail;
    assert s[..10] == date && s[11..19] == clock && s[19..] == tail;
  }

  lemma DateRoundTrip(t: Time)
    requires Valid(t) && Marshals(t)
    ensures |Date(t)| == 10 && ReadDate(Date(t)) == Some((t.year, t.month, t.day))
  {
    Powers();
    ReadFixed(t.year, 4, 10);
    Two(t.month);
    Two(t.day);
    ReadDateParts(Fixed(t.year, 4, 10), Fixed(t.month, 2, 10), Fixed(t.day, 2, 10), t.year, t.month, t.day);
  }

  lemma ClockRoundTrip(t: Time)
    requires Valid(t)
    ensures |Clock(t)| == 8 && ReadClock(Clock(t)) == Some((t.hour, t.minute, t.second))
  {
    Two(t.hour);
    Two(t.minute);
    Two(t.second);
    ReadClockParts(Fixed(t.hour, 2, 10), Fixed(t.minute, 2, 10), Fixed(t.second, 2, 10), t.hour, t.minute, t.second);
  }

  /** Reading back a marshalled time gives the same civil fields, and the offset in whole minutes. */
  lemma TimeRoundTrip(t: Time)
    requires Valid(t) && Marshals(t)
    ensures Parse(Marshal(t).value) == Some(t.(offset := ZoneMinutes(t.offset) * 60))
  {
    DateRoundTrip(t);
    ClockRoundTrip(t);
    TailRoundTrip(t.nano, t.offset);
    var tail := Fraction(t.nano) + Zone(t.offset);
    ParseParts(t.(offset := ZoneMinutes(t.offset) * 60), Date(t), Clock(t), tail);
    assert Marshal(t).value == Date(t) + "T" + Clock(t) + tail;
  }
}
