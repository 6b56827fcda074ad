/**
 * The countdown to the event: a millisecond distance split into days, hours,
 * minutes and seconds, all zero once the event has started.
 */
module Countdown {
  import opened Arithmetic

  const MsPerSecond := 1000
  const MsPerMinute := 60 * MsPerSecond
  const MsPerHour := 60 * MsPerMinute
  const MsPerDay := 24 * MsPerHour

  datatype Remaining = Remaining(days: int, hours: int, minutes: int, seconds: int)

  const Zero := Remaining(0, 0, 0, 0)

  /**
   * The timer callback's conversion of `distance = target - now`. On integer
   * milliseconds `Math.floor((d / u) % n)` is `(d div u) mod n`.
   */
  function CountdownOf(distance: int): (c: Remaining)
    ensures distance <= 0 ==> c == Zero
    ensures distance > 0 ==> c.days >= 0 && 0 <= c.hours < 24 && 0 <= c.minutes < 60 && 0 <= c.seconds < 60
  {
    if distance <= 0 then Zero
    else Remaining(distance / MsPerDay, (distance / MsPerHour) % 24,
                   (distance / MsPerMinute) % 60, (distance / MsPerSecond) % 60)
  }

  /** The milliseconds a countdown stands for, leaving out the sub-second rest. */
  function MillisOf(c: Remaining): int {
    c.days * MsPerDay + c.hours * MsPerHour + c.minutes * MsPerMinute + c.seconds * MsPerSecond
  }

  /** The four components add back up to the distance, less its milliseconds. */
  lemma CountdownRecomposes(distance: int)
    requires distance > 0
    ensures MillisOf(CountdownOf(distance)) + distance % MsPerSecond == distance
  {
    var s := distance / MsPerSecond;
    var m := s / 60;
    var h := m / 60;
    assert distance / MsPerMinute == m;
    assert distance / MsPerHour == h;
    assert distance / MsPerDay == h / 24;
  }

  /**
   * The split is the only one with hours below 24 and minutes and seconds
   * below 60: any such days/hours/minutes/seconds/milliseconds reading of the
   * distance is the one the countdown shows.
   */
  lemma CountdownUnique(distance: int, c: Remaining, ms: int)
    requires distance > 0
    requires c.days >= 0 && 0 <= c.hours < 24 && 0 <= c.minutes < 60 && 0 <= c.seconds < 60 && 0 <= ms < 1000
    requires distance == MillisOf(c) + ms
    ensures CountdownOf(distance) == c
  {
    var s := c.days * 86400 + c.hours * 3600 + c.minutes * 60 + c.seconds;
    var m := c.days * 1440 + c.hours * 60 + c.minutes;
    var h := c.days * 24 + c.hours;
    DivModUnique(distance, MsPerSecond, s, ms);
    DivModUnique(distance, MsPerMinute, m, 1000 * c.seconds + ms);
    DivModUnique(distance, MsPerHour, h, 60000 * c.minutes + 1000 * c.seconds + ms);
    DivModUnique(distance, MsPerDay, c.days, 3600000 * c.hours + 60000 * c.minutes + 1000 * c.seconds + ms);
    DivModUnique(s, 60, m, c.seconds);
    DivModUnique(m, 60, h, c.minutes);
    DivModUnique(h, 24, c.days, c.hours);
  }
}
