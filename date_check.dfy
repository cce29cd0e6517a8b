/**
 * `check_date`: a date must be an element of an index. Without a date, the
 * previous business day (Monday to Friday, no holidays) before today is
 * used; with `string` set, the date's text form is looked up instead.
 */
module DateCheck {
  import opened Outcomes

  /** A calendar date as a day number: 0 is 1970-01-01, a Thursday. */
  type Day = int

  /** Day of the week, 0 for Monday up to 6 for Sunday. */
  function Weekday(d: Day): (w: int)
    ensures 0 <= w < 7
    ensures d == 0 ==> w == 3
  {
    (d + 3) % 7
  }

  predicate IsBusinessDay(d: Day) {
    Weekday(d) < 5
  }

  /** One day back moves one step back through the week. */
  lemma WeekdayOfDayBefore(d: Day)
    ensures Weekday(d - 1) == if Weekday(d) == 0 then 6 else Weekday(d) - 1
  {
    var q := (d + 3) / 7;
    assert d + 3 == 7 * q + Weekday(d);
    if Weekday(d) == 0 {
      assert d + 2 == 7 * (q - 1) + 6;
    } else {
      assert d + 2 == 7 * q + (Weekday(d) - 1);
    }
  }

  /**
   * `(datetime.now() - BDay(1)).date()`: the latest business day strictly
   * before `today`. From a Monday, Saturday or Sunday that is the Friday
   * before; otherwise it is the day before.
   */
  function PreviousBusinessDay(today: Day): (d: Day)
    ensures d < today && IsBusinessDay(d)
    ensures forall e :: d < e < today ==> !IsBusinessDay(e)
  {
    WeekdayOfDayBefore(today);
    WeekdayOfDayBefore(today - 1);
    WeekdayOfDayBefore(today - 2);
    match Weekday(today)
    case 0 => today - 3
    case 6 => today - 2
    case _ => today - 1
  }

  /** An entry of the index, or the date looked up: a date object or a string. */
  datatype Key = DateKey(day: Day) | Text(s: string)

  /** `str(date)`: a string is its own text; a date is written by `render`. */
  function AsText(k: Key, render: Day -> string): (t: Key)
    ensures t.Text?
    ensures k.Text? ==> t == k
    ensures k.DateKey? ==> t == Text(render(k.day))
  {
    match k
    case Text(_) => k
    case DateKey(d) => Text(render(d))
  }

  /** The failure message names the key that was not found. */
  datatype DateError = NotInIndex(key: Key)

  /** The key looked up: the given date or the default, then its text form when `asString`. */
  function LookupKey(date: Option<Key>, asString: bool, today: Day, render: Day -> string): (k: Key)
    ensures asString ==> k.Text?
    ensures date.Some? && (date.value.Text? || !asString) ==> k == date.value
    ensures date.Some? && date.value.DateKey? && asString ==> k == Text(render(date.value.day))
    ensures date.None? && !asString ==> k.DateKey? && k.day < today && IsBusinessDay(k.day)
    ensures date.None? ==> k == if asString then Text(render(PreviousBusinessDay(today)))
                                 else DateKey(PreviousBusinessDay(today))
  {
    var d := if date.None? then DateKey(PreviousBusinessDay(today)) else date.value;
    if asString then AsText(d, render) else d
  }

  /**
   * The validator. `today` stands for the clock reading and `render` for
   * the text form of a date; both are fixed by the caller.
   */
  function CheckDate(idx: seq<Key>, date: Option<Key> := None, asString: bool := false, today: Day, render: Day -> string)
    : (res: Outcome<DateError>)
    ensures res.Pass? <==> LookupKey(date, asString, today, render) in idx
    ensures res.Fail? ==> res.error == NotInIndex(LookupKey(date, asString, today, render))
  {
    var key := LookupKey(date, asString, today, render);
    if key in idx then Pass else Fail(NotInIndex(key))
  }

  /** Converting twice is converting once: `str` of a string is that string. */
  lemma AsTextIdempotent(k: Key, render: Day -> string)
    ensures AsText(AsText(k, render), render) == AsText(k, render)
  {
  }

  /** A date given as a string is looked up as that same string, whether or not `string` is set. */
  lemma TextDateIgnoresStringFlag(idx: seq<Key>, s: string, today: Day, render: Day -> string)
    ensures CheckDate(idx, Some(Text(s)), true, today, render) == CheckDate(idx, Some(Text(s)), false, today, render)
    ensures CheckDate(idx, Some(Text(s)), true, today, render).Pass? <==> Text(s) in idx
  {
  }

  /** Leaving the date out is the same as passing the previous business day. */
  lemma DefaultIsPreviousBusinessDay(idx: seq<Key>, asString: bool, today: Day, render: Day -> string)
    ensures CheckDate(idx, asString := asString, today := today, render := render)
         == CheckDate(idx, Some(DateKey(PreviousBusinessDay(today))), asString, today, render)
  {
  }

  /** The previous business day is the only business day before today with none in between. */
  lemma PreviousBusinessDayUnique(today: Day, d: Day)
    requires d < today && IsBusinessDay(d)
    requires forall e :: d < e < today ==> !IsBusinessDay(e)
    ensures d == PreviousBusinessDay(today)
  {
  }

  /** From a Monday, Saturday or Sunday the default is a Friday; from Tuesday to Friday it is yesterday. */
  lemma PreviousBusinessDayByWeekday(today: Day)
    ensures Weekday(today) == 0 || Weekday(today) >= 5 ==> Weekday(PreviousBusinessDay(today)) == 4
    ensures 1 <= Weekday(today) <= 4 ==> PreviousBusinessDay(today) == today - 1
  {
    WeekdayOfDayBefore(today);
    WeekdayOfDayBefore(today - 1);
    WeekdayOfDayBefore(today - 2);
  }

  /** Distinct dates have distinct text forms. */
  ghost predicate Injective(render: Day -> string) {
    forall x, y :: render(x) == render(y) ==> x == y
  }

  /** The index written out as text, as one would compare against with `string` set. */
  function TextIndex(days: seq<Day>, render: Day -> string): seq<Key> {
    seq(|days|, i requires 0 <= i < |days| => Text(render(days[i])))
  }

  /** The index of date objects. */
  function DateIndex(days: seq<Day>): seq<Key> {
    seq(|days|, i requires 0 <= i < |days| => DateKey(days[i]))
  }

  /**
   * Looking a date up as text in the text form of an index agrees with
   * looking it up as a date in the index of dates, when the text form is
   * injective.
   */
  lemma TextLookupMatchesDateLookup(days: seq<Day>, d: Day, today: Day, render: Day -> string)
    requires Injective(render)
    ensures CheckDate(TextIndex(days, render), Some(DateKey(d)), true, today, render).Pass?
        <==> CheckDate(DateIndex(days), Some(DateKey(d)), false, today, render).Pass?
  {
    if Text(render(d)) in TextIndex(days, render) {
      var i :| 0 <= i < |days| && TextIndex(days, render)[i] == Text(render(d));
      assert DateIndex(days)[i] == DateKey(d);
    }
    if DateKey(d) in DateIndex(days) {
      var i :| 0 <= i < |days| && DateIndex(days)[i] == DateKey(d);
      assert TextIndex(days, render)[i] == Text(render(d));
    }
  }

  /** With `string` set the key is text, so an index holding only date objects never matches. */
  lemma TextNeverInDateIndex(days: seq<Day>, date: Option<Key>, today: Day, render: Day -> string)
    ensures CheckDate(DateIndex(days), date, true, today, render).Fail?
  {
    var key := LookupKey(date, true, today, render);
    assert key.Text?;
    assert key !in DateIndex(days);
  }

  /** Ten business days from 1970-01-01 (a Thursday), skipping the weekends. */
  function TenBusinessDays(): (days: seq<Day>)
    ensures forall i :: 0 <= i < |days| ==> IsBusinessDay(days[i])
  {
    [0, 1, 4, 5, 6, 7, 8, 11, 12, 13]
  }

  /**
   * Over an index of ten business days, the fifth passes and a Saturday,
   * which is not in it, fails naming that day.
   */
  lemma TenDayIndex(render: Day -> string, today: Day)
    ensures CheckDate(DateIndex(TenBusinessDays()), Some(DateKey(TenBusinessDays()[4])), false, today, render) == Pass
    ensures !IsBusinessDay(2)
    ensures CheckDate(DateIndex(TenBusinessDays()), Some(DateKey(2)), false, today, render) == Fail(NotInIndex(DateKey(2)))
  {
    assert DateIndex(TenBusinessDays())[4] == DateKey(6);
  }
}
