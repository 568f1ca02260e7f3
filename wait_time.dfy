/** The wait-time helpers that all four versions of the waitlist script share:
    `calcular_dias_espera`, the whole days elapsed since a patient's first
    contact, and `cor_tempo_espera`, the background colour of that count.
    The system clock is not read: "today" is a parameter. */
module WaitTime {
  import opened Wrappers

  /** The four successive versions of the script. They differ only in how
      `calcular_dias_espera` normalises its argument before subtracting it. */
  datatype Version =
    | App       // app.py
    | Admin     // app_lista_espera_admin.py
    | AdminV53  // app_lista_espera_admin_v5.3.py
    | V61       // app_lista_de_espera_v6.1.py

  const SecondsPerDay: int := 86400

  newtype SecondOfDay = s: int | 0 <= s < 86400

  /** A point in time: a day ordinal and the second within that day. */
  datatype Moment = Moment(day: int, second: SecondOfDay)

  function Midnight(day: int): Moment {
    Moment(day, 0)
  }

  function Seconds(m: Moment): int {
    m.day * 86400 + m.second as int
  }

  /** The three date-like shapes the script hands to `calcular_dias_espera`. */
  datatype Instant =
    | Date(day: int)          // datetime.date, as st.date_input returns it
    | DateTime(at: Moment)    // datetime.datetime
    | Timestamp(at: Moment)   // pandas.Timestamp, as pd.to_datetime returns it
  {
    /** The calendar day the value falls on. */
    function Day(): int {
      match this
      case Date(d) => d
      case DateTime(m) => m.day
      case Timestamp(m) => m.day
    }
  }

  /** `(today - since).days`: Python keeps the seconds of a timedelta in
      [0, 86400), so its `days` field is the floor of the difference. */
  function Elapsed(today: Moment, since: Moment): (d: int)
    ensures d * SecondsPerDay <= Seconds(today) - Seconds(since) < (d + 1) * SecondsPerDay
  {
    (Seconds(today) - Seconds(since)) / 86400
  }

  /** From midnight of a day, the whole days elapsed are the difference of
      the day ordinals, whatever the time of day `today` carries. */
  lemma ElapsedFromMidnight(today: Moment, day: int)
    ensures Elapsed(today, Midnight(day)) == today.day - day
  {
    var d := Elapsed(today, Midnight(day));
    var k := today.day - day;
    assert Seconds(today) - Seconds(Midnight(day)) == k * 86400 + today.second as int;
  }

  /** The count is never negative exactly when the contact is not in the future. */
  lemma ElapsedSign(today: Moment, since: Moment)
    ensures Elapsed(today, since) >= 0 <==> Seconds(since) <= Seconds(today)
    ensures Elapsed(today, since) == 0 <==> Seconds(since) <= Seconds(today) < Seconds(since) + SecondsPerDay
  {
  }

  /** The moment `calcular_dias_espera` subtracts from today, or None where
      that subtraction raises a TypeError. */
  function Normalise(v: Version, t: Instant): (m: Option<Moment>)
    ensures m.None? <==> v == App && t.Date?
    ensures m.Some? ==> m.value.day == t.Day()
    ensures v == App && !t.Date? ==> m == Some(t.at)
    ensures v == Admin ==> m == Some(Midnight(t.Day()))
    ensures v == AdminV53 || v == V61 ==> m == (if t.Timestamp? then Some(t.at) else Some(Midnight(t.Day())))
  {
    match v
    // app.py: no normalisation; `datetime - date` is a TypeError
    case App => if t.Date? then None else Some(t.at)
    // a Timestamp and a datetime are both dates: combined with midnight
    case Admin => Some(Midnight(t.Day()))
    // a Timestamp keeps its time; a date or datetime is combined with midnight
    case AdminV53 | V61 => if t.Timestamp? then Some(t.at) else Some(Midnight(t.Day()))
  }

  /** `calcular_dias_espera(t)` as the given version computes it on `today`. */
  function WaitingDays(v: Version, t: Instant, today: Moment): (r: Option<int>)
    ensures r.None? <==> v == App && t.Date?
    ensures r.Some? ==> r.value * SecondsPerDay <= Seconds(today) - Seconds(Normalise(v, t).value)
                                                  < (r.value + 1) * SecondsPerDay
  {
    match Normalise(v, t)
    case None => None
    case Some(m) => Some(Elapsed(today, m))
  }

  /** A plain date, as the entry form supplies it: every version but app.py
      gives today's ordinal minus the contact's, 0 for today and negative for
      a future date; app.py raises. */
  lemma {:induction false} PlainDateDays(v: Version, day: int, today: Moment)
    ensures WaitingDays(v, Date(day), today) == if v == App then None else Some(today.day - day)
  {
    if v != App {
      ElapsedFromMidnight(today, day);
    }
  }

  /** A pandas Timestamp keeps its time of day in app.py, v5.3 and v6.1; in
      app_lista_espera_admin.py it is cut back to midnight. */
  lemma {:induction false} TimestampDays(v: Version, m: Moment, today: Moment)
    ensures WaitingDays(v, Timestamp(m), today) == if v == Admin then Some(today.day - m.day) else Some(Elapsed(today, m))
  {
    if v == Admin {
      ElapsedFromMidnight(today, m.day);
    }
  }

  /** A datetime keeps its time only in app.py; every later version cuts it
      back to midnight. */
  lemma {:induction false} DateTimeDays(v: Version, m: Moment, today: Moment)
    ensures WaitingDays(v, DateTime(m), today) == if v == App then Some(Elapsed(today, m)) else Some(today.day - m.day)
  {
    if v != App {
      ElapsedFromMidnight(today, m.day);
    }
  }

  /** `pd.to_datetime(x)` on a stored date-like cell. */
  function ToTimestamp(t: Instant): (s: Instant)
    ensures s.Timestamp? && s.Day() == t.Day()
    ensures !t.Date? ==> s.at == t.at
  {
    match t
    case Date(d) => Timestamp(Midnight(d))
    case DateTime(m) => Timestamp(m)
    case Timestamp(m) => Timestamp(m)
  }

  /** The day count the "Dias de Espera" refresh writes for a stored contact
      cell: `calcular_dias_espera(pd.to_datetime(x))`, which succeeds in every
      version because the argument is a Timestamp. */
  function StoredDays(v: Version, t: Instant, today: Moment): (d: int)
    ensures WaitingDays(v, ToTimestamp(t), today) == Some(d)
  {
    WaitingDays(v, ToTimestamp(t), today).value
  }

  /** A row added with a plain date already holds the count the refresh
      would write, in every version that can add it. */
  lemma {:induction false} AddedDaysAreCurrent(v: Version, day: int, today: Moment)
    requires v != App
    ensures Some(StoredDays(v, Date(day), today)) == WaitingDays(v, Date(day), today)
    ensures StoredDays(v, Date(day), today) == today.day - day
  {
    PlainDateDays(v, day, today);
    TimestampDays(v, Midnight(day), today);
    ElapsedFromMidnight(today, day);
  }

  /** The three urgency tiers of a wait. */
  datatype Tier = Low | Medium | High

  /** The classification: inclusive-low, exclusive-high intervals with the
      top tier open-ended. */
  function TierOf(days: int): (t: Tier)
    ensures t == Low <==> days < 15
    ensures t == Medium <==> 15 <= days < 30
    ensures t == High <==> 30 <= days
  {
    if 30 <= days then High else if 15 <= days then Medium else Low
  }

  function Severity(t: Tier): nat {
    match t
    case Low => 0
    case Medium => 1
    case High => 2
  }

  /** A longer wait is never classified as less urgent. */
  lemma TierMonotone(d1: int, d2: int)
    requires d1 <= d2
    ensures Severity(TierOf(d1)) <= Severity(TierOf(d2))
  {
  }

  /** The CSS each tier renders with. */
  function Css(t: Tier): string {
    match t
    case Low => "background-color: #d4edda"
    case Medium => "background-color: #fff3cd"
    case High => "background-color: #f8d7da"
  }

  /** `cor_tempo_espera`: total on every integer, negative counts included. */
  function WaitColour(days: int): (css: string)
    ensures css == Css(TierOf(days))
  {
    if days < 15 then
      "background-color: #d4edda"
    else if days < 30 then
      "background-color: #fff3cd"
    else
      "background-color: #f8d7da"
  }

  /** The three colours are distinct, so the colour shown tells the tier. */
  lemma {:induction false} ColourTellsTier(d1: int, d2: int)
    ensures WaitColour(d1) == WaitColour(d2) <==> TierOf(d1) == TierOf(d2)
  {
    if TierOf(d1) != TierOf(d2) {
      var c1, c2 := WaitColour(d1), WaitColour(d2);
      assert c1[20] != c2[20] || c1[21] != c2[21];
    }
  }

  /** The boundary cases: 14 is low, 15 and 29 medium, 30 high, and a
      future-dated contact (a negative count) low. */
  lemma Boundaries(future: int)
    requires future < 0
    ensures TierOf(14) == Low && TierOf(15) == Medium && TierOf(29) == Medium && TierOf(30) == High
    ensures WaitColour(future) == "background-color: #d4edda"
  {
  }
}
