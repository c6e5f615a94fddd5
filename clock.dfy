/** Times of day and calendar days as the booking forms handle them.

    A time is the zero-padded 24-hour "HH:MM" text of a time input or of
    the slot selects; the forms compare such texts with JavaScript's string
    order, and `LessIsEarlier` shows that for well-formed times that order
    is the order of the minutes they denote.

    A day is what `new Date(text)` makes of a "YYYY-MM-DD" date, possibly
    followed by a "T..." time part as the server sends it. The model keeps
    only an order-preserving day key; "today" is a key of the same kind,
    supplied by the caller instead of a clock. */
module Clock {
  import opened Optional
  import opened Text

  /** A zero-padded 24-hour "HH:MM" time. */
  predicate IsTime(s: string)
  {
    |s| == 5 && IsDigit(s[0]) && IsDigit(s[1]) && s[2] == ':' && IsDigit(s[3]) && IsDigit(s[4]) &&
    DigitValue(s[0]) * 10 + DigitValue(s[1]) < 24 &&
    DigitValue(s[3]) * 10 + DigitValue(s[4]) < 60
  }

  function Hour(s: string): (h: nat)
    requires IsTime(s)
    ensures h < 24
  {
    DigitValue(s[0]) * 10 + DigitValue(s[1])
  }

  function Minute(s: string): (m: nat)
    requires IsTime(s)
    ensures m < 60
  {
    DigitValue(s[3]) * 10 + DigitValue(s[4])
  }

  /** The minute of the day a time denotes. */
  function Minutes(s: string): (m: nat)
    requires IsTime(s)
    ensures m < 24 * 60
  {
    Hour(s) * 60 + Minute(s)
  }

  lemma LessUnfold(a: string, b: string)
    requires |a| > 0 && |b| > 0
    ensures Less(a, b) == (a[0] < b[0] || (a[0] == b[0] && Less(a[1..], b[1..])))
  {
  }

  /** For well-formed times, the string comparison the forms use agrees
      with the order of the minutes of the day. */
  lemma LessIsEarlier(a: string, b: string)
    requires IsTime(a) && IsTime(b)
    ensures Less(a, b) <==> Minutes(a) < Minutes(b)
  {
    LessUnfold(a, b);
    LessUnfold(a[1..], b[1..]);
    LessUnfold(a[2..], b[2..]);
    LessUnfold(a[3..], b[3..]);
    LessUnfold(a[4..], b[4..]);
    assert a[1..][1..] == a[2..] && b[1..][1..] == b[2..];
    assert a[2..][1..] == a[3..] && b[2..][1..] == b[3..];
    assert a[3..][1..] == a[4..] && b[3..][1..] == b[4..];
    assert a[4..][1..] == [] && b[4..][1..] == [];
    assert Less(a, b) <==>
      a[0] < b[0] ||
      (a[0] == b[0] && (a[1] < b[1] ||
      (a[1] == b[1] && (a[3] < b[3] ||
      (a[3] == b[3] && a[4] < b[4])))));
  }

  /** `${hour.toString().padStart(2, "0")}:${minute}` */
  function TimeString(hour: nat, minute: string): string
  {
    PadStart(NatToString(hour), 2, '0') + ":" + minute
  }

  /** Below 100 the hour takes exactly two digits, tens then units,
      before the colon and the minute text. */
  lemma TimeStringChars(hour: nat, minute: string)
    requires hour < 100
    ensures TimeString(hour, minute) == [DigitChar(hour / 10), DigitChar(hour % 10), ':'] + minute
  {
    TwoDigitText(hour);
  }

  /** The text of a slot select entry: `hour` zero-padded to two digits,
      then ":00" or ":30" for `half` 0 or 1. */
  function SlotText(hour: nat, half: nat): string
    requires half < 2
  {
    TimeString(hour, ["00", "30"][half])
  }

  /** The five characters of a slot text: the two digits of the hour, a
      colon, then "00" or "30". */
  lemma SlotChars(hour: nat, half: nat)
    requires hour < 24 && half < 2
    ensures SlotText(hour, half) ==
            [DigitChar(hour / 10), DigitChar(hour % 10), ':', if half == 0 then '0' else '3', '0']
  {
    TwoDigitText(hour);
    var m := ["00", "30"][half];
    assert m == if half == 0 then "00" else "30";
    assert PadStart(NatToString(hour), 2, '0') + ":" + m ==
           [DigitChar(hour / 10), DigitChar(hour % 10)] + [':'] + [m[0], m[1]];
  }

  /** Two digits of an hour below 24, a colon, then "00" or "30" make a
      well-formed time, `half` half-hours after the hour. */
  lemma HalfHourIsTime(t: string, hour: nat, half: nat)
    requires hour < 24 && half < 2
    requires t == [DigitChar(hour / 10), DigitChar(hour % 10), ':', if half == 0 then '0' else '3', '0']
    ensures IsTime(t) && Minutes(t) == hour * 60 + 30 * half
  {
    assert DigitValue(t[0]) * 10 + DigitValue(t[1]) == hour;
    assert DigitValue(t[3]) * 10 + DigitValue(t[4]) == 30 * half;
  }

  /** A slot text is a well-formed time, `half` half-hours after the hour. */
  lemma SlotTextIsTime(hour: nat, half: nat)
    requires hour < 24 && half < 2
    ensures IsTime(SlotText(hour, half)) && Minutes(SlotText(hour, half)) == hour * 60 + 30 * half
  {
    SlotChars(hour, half);
    HalfHourIsTime(SlotText(hour, half), hour, half);
  }

  /** The `i`-th entry of the slot selects: hours 6 to 23, each at ":00"
      and ":30". */
  function Slot(i: nat): string
    requires i < 36
  {
    SlotText(6 + i / 2, i % 2)
  }

  /** Slot `i` is the time 30 * i minutes after six in the morning. */
  lemma SlotIsTime(i: nat)
    requires i < 36
    ensures IsTime(Slot(i)) && Minutes(Slot(i)) == 6 * 60 + 30 * i
  {
    SlotTextIsTime(6 + i / 2, i % 2);
  }

  /** The slots are strictly increasing, in the order the forms compare
      them. */
  lemma SlotsAscending(i: nat, j: nat)
    requires i < j < 36
    ensures Less(Slot(i), Slot(j))
  {
    SlotIsTime(i);
    SlotIsTime(j);
    LessIsEarlier(Slot(i), Slot(j));
  }

  /** The first slot is six in the morning and the last half past eleven at
      night. */
  lemma SlotEnds()
    ensures Slot(0) == "06:00" && Slot(35) == "23:30"
  {
    SlotDigits(0, '0', '6');
    SlotDigits(35, '2', '3');
  }

  /** Slot `i` spelled out from the two digit characters of its hour. */
  lemma SlotDigits(i: nat, tens: char, units: char)
    requires i < 36
    requires tens == DigitChar((6 + i / 2) / 10) && units == DigitChar((6 + i / 2) % 10)
    ensures Slot(i) == [tens, units, ':', if i % 2 == 0 then '0' else '3', '0']
  {
    SlotChars(6 + i / 2, i % 2);
  }

  /** A round of the generator's inner loop, for `hour` and the minute
      text at index `k`: appended to the slots that come before it, its
      entry is the next slot. */
  lemma AppendSlot(options: seq<string>, hour: nat, k: nat, minute: string)
    requires 6 <= hour <= 23 && k < 2 && minute == ["00", "30"][k]
    requires |options| == 2 * (hour - 6) + k
    requires forall i :: 0 <= i < |options| ==> options[i] == Slot(i)
    ensures forall i :: 0 <= i < |options| + 1 ==> (options + [TimeString(hour, minute)])[i] == Slot(i)
  {
    var j := 2 * (hour - 6) + k;
    SlotIndex(hour - 6, k);
    assert 6 + j / 2 == hour && j % 2 == k;
    assert Slot(j) == SlotText(hour, k);
    var next := options + [TimeString(hour, minute)];
    forall i | 0 <= i < |options| + 1 ensures next[i] == Slot(i) {
      if i < |options| {
        assert next[i] == options[i];
      }
    }
  }

  lemma SlotIndex(h: nat, k: nat)
    requires k < 2
    ensures (2 * h + k) / 2 == h && (2 * h + k) % 2 == k
  {
  }

  /** The whole list of slot select entries. */
  function TimeOptions(): seq<string>
  {
    seq(36, i requires 0 <= i < 36 => Slot(i))
  }

  /** The slot list holds 36 well-formed times, half an hour apart, from
      "06:00" to "23:30", in strictly increasing string order. */
  lemma TimeOptionsShape()
    ensures |TimeOptions()| == 36
    ensures TimeOptions()[0] == "06:00" && TimeOptions()[35] == "23:30"
    ensures forall i :: 0 <= i < 36 ==>
              IsTime(TimeOptions()[i]) && Minutes(TimeOptions()[i]) == 6 * 60 + 30 * i
    ensures forall i, j :: 0 <= i < j < 36 ==> Less(TimeOptions()[i], TimeOptions()[j])
  {
    SlotEnds();
    forall i | 0 <= i < 36
      ensures IsTime(TimeOptions()[i]) && Minutes(TimeOptions()[i]) == 6 * 60 + 30 * i
    {
      SlotIsTime(i);
    }
    forall i, j | 0 <= i < j < 36 ensures Less(TimeOptions()[i], TimeOptions()[j]) {
      SlotsAscending(i, j);
    }
  }

  /** A date text `new Date` accepts: "YYYY-MM-DD", alone or followed by a
      "T..." time part. */
  predicate IsDateText(s: string)
  {
    |s| >= 10 && (|s| == 10 || s[10] == 'T') &&
    AllDigits(s[..4]) && s[4] == '-' && AllDigits(s[5..7]) && s[7] == '-' && AllDigits(s[8..10]) &&
    1 <= DigitsValue(s[5..7]) <= 12 && 1 <= DigitsValue(s[8..10]) <= 31
  }

  /** A key that orders days as the calendar does. */
  function DayKey(year: nat, month: nat, day: nat): int
  {
    (year * 12 + month) * 31 + day
  }

  /** A place-value key `q * k + r` with its low part `r` in 1..k orders
      pairs lexicographically: first by `q`, then by `r`. */
  lemma {:induction false} PlaceValueOrder(q1: nat, r1: nat, q2: nat, r2: nat, k: nat)
    requires 1 <= r1 <= k && 1 <= r2 <= k
    ensures q1 * k + r1 < q2 * k + r2 <==> q1 < q2 || (q1 == q2 && r1 < r2)
  {
    if q1 < q2 {
      assert (q1 + 1) * k <= q2 * k;
      assert q1 * k + r1 <= (q1 + 1) * k;
    } else if q2 < q1 {
      assert (q2 + 1) * k <= q1 * k;
      assert q2 * k + r2 <= (q2 + 1) * k;
    }
  }

  /** Day keys order days as the calendar does: by year, then month, then
      day of the month. */
  lemma DayKeyOrdersDays(y1: nat, m1: nat, d1: nat, y2: nat, m2: nat, d2: nat)
    requires 1 <= m1 <= 12 && 1 <= d1 <= 31 && 1 <= m2 <= 12 && 1 <= d2 <= 31
    ensures DayKey(y1, m1, d1) < DayKey(y2, m2, d2) <==>
            y1 < y2 || (y1 == y2 && (m1 < m2 || (m1 == m2 && d1 < d2)))
  {
    PlaceValueOrder(y1, m1, y2, m2, 12);
    PlaceValueOrder(y1 * 12 + m1, d1, y2 * 12 + m2, d2, 31);
  }

  /** `new Date(s)` as a day: None is an Invalid Date, against which every
      comparison is false. */
  function ParseDay(s: string): (d: Option<int>)
    ensures d.Some? <==> IsDateText(s)
  {
    if IsDateText(s) then Some(DayKey(DigitsValue(s[..4]), DigitsValue(s[5..7]), DigitsValue(s[8..10])))
    else None
  }

  /** `new Date(date) < today`, the past-date test of both forms. */
  predicate IsPast(date: string, today: int)
  {
    match ParseDay(date)
    case Some(d) => d < today
    case None => false
  }

  /** `split("T")[0]`: the date part of a server date. */
  function DatePart(s: string): (r: string)
    ensures r <= s && 'T' !in r
    ensures |r| < |s| ==> s[|r|] == 'T'
  {
    BeforeFirst(s, 'T')
  }

  /** The date part of a server date is its first ten characters, and it
      denotes the same day. */
  lemma DatePartSameDay(s: string)
    ensures IsDateText(s) ==> DatePart(s) == s[..10] && ParseDay(DatePart(s)) == ParseDay(s)
  {
    if !IsDateText(s) { return; }
    forall i | 0 <= i < 10 ensures s[i] != 'T' {
      if i < 4 { assert IsDigit(s[..4][i]); }
      else if 5 <= i < 7 { assert IsDigit(s[5..7][i - 5]); }
      else if 8 <= i { assert IsDigit(s[8..10][i - 8]); }
    }
    BeforeFirstAt(s, 'T', 10);
    var p := s[..10];
    assert |p| == 10 && p[..4] == s[..4] && p[5..7] == s[5..7];
    assert p[8..10] == [s[8], s[9]] == s[8..10];
    assert IsDateText(p);
  }
}
