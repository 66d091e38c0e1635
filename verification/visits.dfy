/** The `Visit` record of script.js: one visit to a place picked on the map,
    with the form's free-text answers, the tier derived from its rating, a
    creation-time id and a month-and-day display date. */
module Visits {
  import opened Wrappers
  import opened Decimal

  /** The categorical rating tier, stored in the record's `custom` field. */
  datatype Tier = Bad | Average | Good {
    /** The string the source stores and interpolates into CSS class names. */
    function Name(): (s: string)
      ensures |s| >= 3
    {
      match this
      case Bad => "bad"
      case Average => "average"
      case Good => "good"
    }
  }

  /** A JavaScript number as far as comparisons can tell: NaN, a finite value
      or one of the two infinities. */
  datatype JsNumber = NaN | Finite(value: real) | PosInfinity | NegInfinity

  /** `x < c` for a number `x` and a finite constant `c`; any comparison with
      NaN is false. */
  predicate LessThan(x: JsNumber, c: real) {
    match x
    case NaN => false
    case Finite(v) => v < c
    case PosInfinity => false
    case NegInfinity => true
  }

  /** `x > c` for a number `x` and a finite constant `c`; any comparison with
      NaN is false. */
  predicate GreaterThan(x: JsNumber, c: real) {
    match x
    case NaN => false
    case Finite(v) => v > c
    case PosInfinity => true
    case NegInfinity => false
  }

  /** The tier rule of `_newVisit`: the rating string, coerced to a number,
      is compared with 5 and then with 7. A value that is not a number fails
      both comparisons and lands in the middle tier. */
  function Classify(rating: JsNumber): (t: Tier)
    ensures t == Bad <==> (rating.Finite? && rating.value < 5.0) || rating == NegInfinity
    ensures t == Good <==> (rating.Finite? && rating.value > 7.0) || rating == PosInfinity
    ensures t == Average <==> rating == NaN || (rating.Finite? && 5.0 <= rating.value <= 7.0)
  {
    if LessThan(rating, 5.0) then Bad
    else if GreaterThan(rating, 7.0) then Good
    else Average
  }

  /** On whole-number ratings the middle tier is exactly 5, 6 and 7. */
  lemma IntegerRatingTiers(k: int)
    ensures Classify(Finite(k as real)) == Bad <==> k < 5
    ensures Classify(Finite(k as real)) == Average <==> k == 5 || k == 6 || k == 7
    ensures Classify(Finite(k as real)) == Good <==> 7 < k
  {
  }

  /** A map position. The model only copies it, never computes on it. */
  datatype LatLng = LatLng(lat: real, lng: real)

  /** `Date.prototype.getMonth`: 0 for January through 11 for December. */
  type Month = m: int | 0 <= m < 12

  /** `Date.prototype.getDate`: the day of the month. */
  type DayOfMonth = d: int | 1 <= d <= 31 witness 1

  /** The local calendar reading of the creation time, as the date library
      reports it. */
  datatype CalendarDay = CalendarDay(month: Month, day: DayOfMonth)

  /** The month-name table of `_setDisplayDate`. */
  const MonthNames: seq<string> := [
    "January", "February", "March", "April", "May", "June", "July",
    "August", "September", "October", "November", "December"
  ]

  /** `displayDate`: the month's name, one space, then the day in decimal.
      The month index is a `Month`, so the table lookup is always in bounds,
      and the string reads back as exactly the calendar day it shows. */
  function DisplayDate(c: CalendarDay): (s: string)
    ensures |s| > |MonthNames[c.month]| + 1
    ensures ParseDisplayDate(s) == Some(c)
    ensures s[|MonthNames[c.month]| + 1] != '0'
  {
    MonthDayReadsBack(c);
    MonthNames[c.month] + " " + DecimalString(c.day)
  }

  /** The index of the first occurrence of `x` in `s`, if any. */
  function IndexOf(s: string, x: char): (r: Option<nat>)
    ensures r.Some? ==> r.value < |s| && s[r.value] == x && x !in s[..r.value]
    ensures r.None? <==> x !in s
  {
    if |s| == 0 then None
    else if s[0] == x then Some(0)
    else
      match IndexOf(s[1..], x)
      case None => None
      case Some(i) =>
        assert s[..i + 1] == [s[0]] + s[1..][..i];
        Some(i + 1)
  }

  /** The first month whose name is `name`, searching from index `from`. */
  function MonthFrom(name: string, from: nat): (r: Option<Month>)
    requires from <= 12
    decreases 12 - from
    ensures r.Some? ==> from <= r.value && MonthNames[r.value] == name
    ensures r.Some? ==> forall m :: from <= m < r.value ==> MonthNames[m] != name
    ensures r.None? <==> forall m :: from <= m < 12 ==> MonthNames[m] != name
  {
    if from == 12 then None
    else if MonthNames[from] == name then Some(from)
    else MonthFrom(name, from + 1)
  }

  /** Reads a display date back into the calendar day it shows: the text
      before the first space names the month, the rest is the day's digits. */
  function ParseDisplayDate(s: string): (r: Option<CalendarDay>)
  {
    match IndexOf(s, ' ')
    case None => None
    case Some(i) =>
      var digits := s[i + 1..];
      match MonthFrom(s[..i], 0)
      case None => None
      case Some(m) =>
        if |digits| == 0 || !AllDigits(digits) then None
        else
          var d := ParseDecimal(digits);
          if 1 <= d <= 31 then Some(CalendarDay(m, d)) else None
  }

  /** No two months share a name, and no name contains a space. */
  lemma MonthNamesWellFormed()
    ensures forall i, j :: 0 <= i < j < 12 ==> MonthNames[i] != MonthNames[j]
    ensures forall i :: 0 <= i < 12 ==> ' ' !in MonthNames[i]
  {
  }

  /** A month name, a space and a day's digits read back as that month and day. */
  lemma MonthDayReadsBack(c: CalendarDay)
    ensures ParseDisplayDate(MonthNames[c.month] + " " + DecimalString(c.day)) == Some(c)
  {
    var name := MonthNames[c.month];
    var s := MonthNames[c.month] + " " + DecimalString(c.day);
    MonthNamesWellFormed();
    assert s[..|name|] == name;
    assert s[|name|] == ' ';
    assert IndexOf(s, ' ') == Some(|name|);
    assert s[|name| + 1..] == DecimalString(c.day);
    ParseDecimalString(c.day);
  }

  /** Different calendar days never share a display date. */
  lemma DisplayDateInjective(c1: CalendarDay, c2: CalendarDay)
    requires DisplayDate(c1) == DisplayDate(c2)
    ensures c1 == c2
  {
  }

  /** Milliseconds in the window the id keeps: the last ten decimal digits. */
  const IdWindow: nat := Pow10(10)

  /** `(Date.now() + "").slice(-10)`: the last at most ten characters of the
      decimal timestamp. */
  function TimestampId(now: nat): (id: string)
    ensures |id| <= 10 && AllDigits(id)
    ensures |id| == 10 || id == DecimalString(now)
    ensures |DecimalString(now)| <= 10 ==> id == DecimalString(now)
    ensures |id| <= |DecimalString(now)|
    ensures id == DecimalString(now)[|DecimalString(now)| - |id|..]
  {
    var s := DecimalString(now);
    if |s| <= 10 then s else s[|s| - 10..]
  }

  /** Read as a number, the id is the timestamp modulo 10^10. */
  lemma IdIsTimestampModulo(now: nat)
    ensures ParseDecimal(TimestampId(now)) == now % IdWindow
  {
    var s := DecimalString(now);
    ParseDecimalString(now);
    if |s| <= 10 {
      if |s| < 10 {
        Pow10Monotone(|s|, 10);
      }
      ModOfDecomposition(now, IdWindow, 0, now);
    } else {
      ParseSuffix(s, 10);
    }
  }

  /** Two creation times in different positions of the 10^10 ms window get
      different ids. */
  lemma IdsDistinctWithinWindow(now1: nat, now2: nat)
    requires now1 % IdWindow != now2 % IdWindow
    ensures TimestampId(now1) != TimestampId(now2)
  {
    IdIsTimestampModulo(now1);
    IdIsTimestampModulo(now2);
  }

  /** The id is not unique: creation times at least 10^9 ms apart by a
      multiple of 10^10 ms get the same id. */
  lemma IdsCollideAcrossWindow(now1: nat, now2: nat)
    requires Pow10(9) <= now1 && Pow10(9) <= now2
    requires now1 % IdWindow == now2 % IdWindow
    ensures TimestampId(now1) == TimestampId(now2)
  {
    IdIsTimestampModulo(now1);
    IdIsTimestampModulo(now2);
    IdHasTenDigits(now1);
    IdHasTenDigits(now2);
    ParseDecimalInjective(TimestampId(now1), TimestampId(now2));
  }

  /** From 10^9 ms on, the timestamp has at least ten digits. */
  lemma IdHasTenDigits(now: nat)
    requires Pow10(9) <= now
    ensures |TimestampId(now)| == 10
  {
  }

  /** One recorded visit, as `new Visit(...)` leaves it. `date` is the
      creation time in milliseconds; `custom` is the tier. */
  datatype Visit = Visit(
    date: nat,
    id: string,
    coords: LatLng,
    title: string,
    rating: string,
    bathroom: string,
    feeding: string,
    changing: string,
    summary: string,
    custom: Tier,
    displayDate: string)

  /** The `Visit` constructor, with the clock passed in: `now` is the
      creation time and `day` its calendar reading. The seven given fields
      and the tier are copied unchanged; the id and the display date are
      derived from the creation time. */
  function NewVisit(coords: LatLng, title: string, rating: string, bathroom: string,
                    feeding: string, changing: string, summary: string, custom: Tier,
                    now: nat, day: CalendarDay): (v: Visit)
    ensures v.coords == coords && v.title == title && v.rating == rating
    ensures v.bathroom == bathroom && v.feeding == feeding && v.changing == changing
    ensures v.summary == summary && v.custom == custom && v.date == now
    ensures |v.id| <= 10 && AllDigits(v.id) && ParseDecimal(v.id) == now % IdWindow
    ensures ParseDisplayDate(v.displayDate) == Some(day)
    ensures v.id == TimestampId(now) && v.displayDate == DisplayDate(day)
  {
    IdIsTimestampModulo(now);
    Visit(now, TimestampId(now), coords, title, rating, bathroom, feeding, changing,
          summary, custom, DisplayDate(day))
  }
}
