/**
 * How the expiry of a pending registration is written into the verification
 * e-mail. `strftime` and the zoneinfo database are abstract: a formatted
 * expiry is the instant or wall-clock time it shows together with the zone
 * label, and a zone lookup is a parameter that says which zone keys exist.
 */
module Expiry {
  import opened Common
  import opened Strings

  /** A UTC offset in minutes; Python keeps it strictly within one day. */
  newtype Offset = m: int | -1440 < m < 1440

  /** A `tzinfo` as the formatting code sees it: `tzname()` and `utcoffset()`. */
  datatype TzInfo = TzInfo(name: string, offset: Offset)

  /** A `datetime`: its wall-clock reading in seconds and its `tzinfo`, if any. */
  datatype DateTime = DateTime(wall: int, tz: Option<TzInfo>)

  /** What the registration call returned in place of an expiry. */
  datatype ExpiryValue = At(dt: DateTime) | NotDateTime(repr: string)

  /** The text written into the e-mail, up to the `strftime` layout. */
  datatype Formatted =
    | InZone(instant: int, zone: string)   // converted with astimezone, labelled with the zone's %Z
    | LabelledUtc(wall: int)               // the datetime's own wall clock, labelled "UTC"
    | Labelled(wall: int, zoneLabel: string)   // the datetime's own wall clock and the given label
    | Repr(text: string)                   // str() of a value that is not a datetime

  const Utc: TzInfo := TzInfo("UTC", 0)

  /** Seconds since the epoch, taking a naive datetime as UTC. */
  function Instant(dt: DateTime): int
  {
    match dt.tz
    case None => dt.wall
    case Some(tz) => dt.wall - 60 * (tz.offset as int)
  }

  /** `expires_at.replace(tzinfo=timezone.utc)` for a naive value, nothing otherwise. */
  function AssumeUtc(dt: DateTime): (r: DateTime)
    ensures r.tz.Some? && Instant(r) == Instant(dt) && r.wall == dt.wall
  {
    if dt.tz.None? then dt.(tz := Some(Utc)) else dt
  }

  /**
   * The formatting of the current registration handlers and of the controller:
   * a naive expiry is taken as UTC; a non-empty timezone that the zone database
   * knows gives the local time there; an empty, absent or unknown one gives the
   * expiry's own clock reading labelled UTC; anything else is passed to `str`.
   */
  function FormatExpirationTime(e: ExpiryValue, timezone: Option<string>, zoneKnown: string -> bool): (r: Formatted)
    ensures e.NotDateTime? ==> r == Repr(e.repr)
    ensures e.At? && timezone.Some? && timezone.value != "" && zoneKnown(timezone.value) ==>
      r == InZone(Instant(e.dt), timezone.value)
    ensures e.At? && !(timezone.Some? && timezone.value != "" && zoneKnown(timezone.value)) ==>
      r == LabelledUtc(e.dt.wall)
  {
    match e
    case NotDateTime(text) => Repr(text)
    case At(dt) =>
      var aware := AssumeUtc(dt);
      if timezone.Some? && timezone.value != "" then
        if zoneKnown(timezone.value) then InZone(Instant(aware), timezone.value)
        else LabelledUtc(aware.wall)
      else LabelledUtc(aware.wall)
  }

  /**
   * A naive expiry is formatted exactly like the same reading marked UTC, and
   * whatever the zone, the e-mail states the instant the store returned
   * whenever that reading was in UTC.
   */
  lemma {:induction false} NaiveMeansUtc(wall: int, timezone: Option<string>, zoneKnown: string -> bool)
    ensures FormatExpirationTime(At(DateTime(wall, None)), timezone, zoneKnown)
         == FormatExpirationTime(At(DateTime(wall, Some(Utc))), timezone, zoneKnown)
    ensures match FormatExpirationTime(At(DateTime(wall, None)), timezone, zoneKnown)
      case InZone(instant, _) => instant == wall
      case LabelledUtc(w) => w == wall
      case _ => false
  {
  }

  /** Two digits of a number below one hundred. */
  function TwoDigits(n: nat): (r: string)
    requires n < 100
    ensures |r| == 2 && NatDigitsOf(r) == n
  {
    [('0' as int + n / 10) as char, ('0' as int + n % 10) as char]
  }

  /** The number a string of two decimal digits stands for. */
  function NatDigitsOf(s: string): int
    requires |s| == 2
  {
    (s[0] as int - '0' as int) * 10 + (s[1] as int - '0' as int)
  }

  /** `%z`: the sign, then hours and minutes of the offset, two digits each. */
  function OffsetText(m: Offset): (r: string)
    ensures |r| == 5 && (r[0] == '-' <==> m < 0) && (r[0] == '+' <==> m >= 0)
    ensures NatDigitsOf(r[1..3]) * 60 + NatDigitsOf(r[3..5]) == if m < 0 then -(m as int) else m as int
  {
    var a: nat := if m < 0 then -(m as int) else m as int;
    var hh, mm := TwoDigits(a / 60), TwoDigits(a % 60);
    var r := [if m < 0 then '-' else '+'] + hh + mm;
    assert r[1..3] == hh && r[3..5] == mm;
    r
  }

  /**
   * The formatting of the oldest registration handler: no conversion at all; a
   * naive expiry is labelled "UTC", an aware one with its `%Z` name or, when
   * that is empty, with its `%z` offset.
   */
  function LegacyFormat(e: ExpiryValue): (r: Formatted)
    ensures e.NotDateTime? ==> r == Repr(e.repr)
    ensures e.At? ==> r.Labelled? && r.wall == e.dt.wall
    ensures e.At? && e.dt.tz.None? ==> r.zoneLabel == "UTC"
    ensures e.At? && e.dt.tz.Some? && e.dt.tz.value.name != "" ==> r.zoneLabel == e.dt.tz.value.name
    ensures e.At? && e.dt.tz.Some? && e.dt.tz.value.name == "" ==> r.zoneLabel == OffsetText(e.dt.tz.value.offset)
  {
    match e
    case NotDateTime(text) => Repr(text)
    case At(dt) =>
      var zoneLabel := match dt.tz
        case None => "UTC"
        case Some(tz) => if tz.name != "" then tz.name else OffsetText(tz.offset);
      Labelled(dt.wall, zoneLabel)
  }
}
