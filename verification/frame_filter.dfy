/** The chart series built from timestamped readings: by hour over the last
    24 hours, or averaged by day over the last 7 or 30 days. The clock is a
    parameter: the start hour and date of the hourly countdown, the
    previous day's date, and the two-digit day labels of `i` days ago. */
module FrameFilter {
  import opened Common

  /** One reading: its `DTM` timestamp text and its `VALUE`. */
  datatype Entry = Entry(dtm: string, value: real)

  /** The hourly series: values and hours, oldest first. */
  datatype DailySeries = DailySeries(data: seq<int>, labels: seq<int>)

  /** What `frameFilter` returns: an hourly series, a per-day series of
      averages and day labels, the payload untouched, or the error thrown. */
  datatype Framed = Hourly(series: DailySeries) | Days(data: seq<real>, labels: seq<string>)
                  | Unchanged(payload: seq<Entry>) | Threw(message: string)

  /** The TypeError of calling `substring` on a missing piece of a split. */
  const UndefinedSubstring := "Cannot read properties of undefined (reading 'substring')"

  // The hourly series.

  /** `+(x.toFixed(0))`: the nearest integer, halves away from zero. */
  function RoundHalfAway(x: real): int {
    if x >= 0.0 then (x + 0.5).Floor else -((-x + 0.5).Floor)
  }

  /** The rounded value is within a half of the reading, and a half is
      rounded away from zero. */
  lemma RoundHalfAwayProperties(x: real)
    ensures -0.5 <= RoundHalfAway(x) as real - x <= 0.5
    ensures x >= 0.0 ==> RoundHalfAway(x) >= 0 && RoundHalfAway(x) as real - x > -0.5
    ensures x < 0.0 ==> RoundHalfAway(x) <= 0 && RoundHalfAway(x) as real - x < 0.5
  {
  }

  /** `DTM.split('T')[1].substring(0, 2)`, or nothing when there is no 'T'. */
  function HourText(dtm: string): Option<string> {
    var parts := Split(dtm, 'T');
    if |parts| > 1 then Some(Take(parts[1], 2)) else None
  }

  /** `DTM.split('-')[2].substring(0, 2)`, or nothing when there are fewer
      than two '-'. */
  function DateText(dtm: string): Option<string> {
    var parts := Split(dtm, '-');
    if |parts| > 2 then Some(Take(parts[2], 2)) else None
  }

  /** The key a reading is stored under: date, '-', hour. */
  function HourKey(date: string, hour: string): string {
    date + "-" + hour
  }

  /** A reading that has both an hour and a date. */
  predicate Readable(e: Entry) {
    HourText(e.dtm).Some? && DateText(e.dtm).Some?
  }

  /** The date-hour key a reading is stored under (when it is readable). */
  function ReadingKey(e: Entry): string {
    HourKey(DateText(e.dtm).GetOr(""), HourText(e.dtm).GetOr(""))
  }

  /** One pass of the storing loop: the reading is stored under its
      date-hour key unless its bare hour is already a key; a reading
      without an hour or a date throws. */
  function Store(values: map<string, int>, e: Entry): Result<map<string, int>> {
    if !Readable(e) then Err(UndefinedSubstring)
    else if HourText(e.dtm).value in values then Ok(values)
    else Ok(values[ReadingKey(e) := RoundHalfAway(e.value)])
  }

  /** The values the storing loop of `getDailyData` leaves after `payload`. */
  function HourlyValues(payload: seq<Entry>): Result<map<string, int>>
    decreases |payload|
  {
    if payload == [] then Ok(map[])
    else
      var before := HourlyValues(payload[..|payload| - 1]);
      if before.Err? then before else Store(before.value, payload[|payload| - 1])
  }

  /** Once a reading has thrown, the rest are not looked at. */
  lemma {:induction false} HourlyErrorSticks(payload: seq<Entry>, i: nat)
    requires i <= |payload| && HourlyValues(payload[..i]).Err?
    ensures HourlyValues(payload) == HourlyValues(payload[..i])
    decreases |payload| - i
  {
    if i < |payload| {
      assert payload[..i + 1][..i] == payload[..i];
      HourlyErrorSticks(payload, i + 1);
    } else {
      assert payload[..i] == payload;
    }
  }

  /** Every stored key holds a '-'. */
  lemma KeyHasDash(e: Entry)
    requires Readable(e)
    ensures '-' in ReadingKey(e)
  {
    assert ReadingKey(e)[|DateText(e.dtm).value|] == '-';
  }

  /** The loop throws exactly when some reading lacks its hour or its date;
      every stored key holds a '-'. */
  lemma {:induction false} HourlyValuesProperties(payload: seq<Entry>)
    ensures HourlyValues(payload).Err? <==> exists i :: 0 <= i < |payload| && !Readable(payload[i])
    ensures HourlyValues(payload).Err? ==> HourlyValues(payload).message == UndefinedSubstring
    ensures HourlyValues(payload).Ok? ==> forall k :: k in HourlyValues(payload).value ==> '-' in k
    decreases |payload|
  {
    if payload != [] {
      var n := |payload| - 1;
      var init := payload[..n];
      HourlyValuesProperties(init);
      assert forall i :: 0 <= i < n ==> init[i] == payload[i];
      if HourlyValues(init).Err? {
        var i :| 0 <= i < n && !Readable(init[i]);
        assert !Readable(payload[i]);
      } else if Readable(payload[n]) {
        KeyHasDash(payload[n]);
      }
    }
  }

  /** Key-value pairs written into an empty map in turn, each write
      replacing what an earlier one left under the same key. */
  function Assign<K, V>(pairs: seq<(K, V)>): map<K, V>
    decreases |pairs|
  {
    if pairs == [] then map[]
    else Assign(pairs[..|pairs| - 1])[pairs[|pairs| - 1].0 := pairs[|pairs| - 1].1]
  }

  /** The keys written are the keys of the pairs, and each holds the value
      of the last pair with that key. */
  lemma {:induction false} AssignLastWins<K, V>(pairs: seq<(K, V)>)
    ensures forall k :: k in Assign(pairs) <==> exists i :: 0 <= i < |pairs| && pairs[i].0 == k
    ensures forall i :: 0 <= i < |pairs| && (forall j :: i < j < |pairs| ==> pairs[j].0 != pairs[i].0) ==>
      pairs[i].0 in Assign(pairs) && Assign(pairs)[pairs[i].0] == pairs[i].1
    decreases |pairs|
  {
    if pairs != [] {
      var n := |pairs| - 1;
      var init := pairs[..n];
      AssignLastWins(init);
      assert forall i :: 0 <= i < n ==> init[i] == pairs[i];
      forall k ensures k in Assign(pairs) <==> exists i :: 0 <= i < |pairs| && pairs[i].0 == k {
        if k in Assign(init) {
          var i :| 0 <= i < n && init[i].0 == k;
          assert pairs[i].0 == k;
        }
        if k == pairs[n].0 {
          assert 0 <= n < |pairs| && pairs[n].0 == k;
        }
        if exists i :: 0 <= i < |pairs| && pairs[i].0 == k {
          var i :| 0 <= i < |pairs| && pairs[i].0 == k;
          if i < n {
            assert init[i].0 == k;
          }
        }
      }
    }
  }

  /** Mapping a prefix is the prefix of the mapping. */
  lemma MapPrefix<A, B>(f: A -> B, s: seq<A>, n: nat)
    requires n <= |s|
    ensures seq(|s|, k requires 0 <= k < |s| => f(s[k]))[..n] == seq(n, k requires 0 <= k < n => f(s[..n][k]))
  {
  }

  /** The write a reading would make: its key and its rounded value. */
  function Write(e: Entry): (string, int) {
    (ReadingKey(e), RoundHalfAway(e.value))
  }

  function Writes(payload: seq<Entry>): seq<(string, int)> {
    seq(|payload|, k requires 0 <= k < |payload| => Write(payload[k]))
  }

  /** When no hour text holds a '-' (two digits, say), the guard never
      holds a reading back: the loop stores exactly what writing every
      reading under its key in turn stores, so each key holds the value of
      the last reading with that key. */
  lemma {:induction false} HourlyLastWins(payload: seq<Entry>)
    requires forall i :: 0 <= i < |payload| ==> Readable(payload[i]) && '-' !in HourText(payload[i].dtm).value
    ensures HourlyValues(payload) == Ok(Assign(Writes(payload)))
    decreases |payload|
  {
    if payload != [] {
      var n := |payload| - 1;
      var init := payload[..n];
      assert forall i :: 0 <= i < n ==> init[i] == payload[i];
      HourlyLastWins(init);
      HourlyValuesProperties(init);
      MapPrefix(Write, payload, n);
      assert Writes(payload)[..n] == Writes(init);
      var e := payload[n];
      assert HourText(e.dtm).value !in Assign(Writes(init));
    }
  }

  /** `String(n)` padded to two characters when it has one. */
  function PadTwo(n: int): string {
    var s := IntToString(n);
    if |s| != 1 then s else "0" + s
  }

  /** A countdown slot: an hour and a date. */
  type Slot = (int, int)

  /** The hour after `hour` in the countdown: one less, or 23 below zero. */
  function NextHour(hour: int): int {
    if hour - 1 < 0 then 23 else hour - 1
  }

  /** The date that goes with the next hour: the previous day's date once
      the hour has wrapped. */
  function NextDate(hour: int, date: int, previousDate: int): int {
    if hour - 1 < 0 then previousDate else date
  }

  /** The (hour, date) slot the countdown reaches `k` steps after
      (`hour`, `date`). */
  function SlotAt(hour: int, date: int, previousDate: int, k: nat): (int, int)
    decreases k
  {
    if k == 0 then (hour, date)
    else SlotAt(NextHour(hour), NextDate(hour, date, previousDate), previousDate, k - 1)
  }

  /** One more step moves on from where `k` steps have led. */
  lemma {:induction false} SlotAtNext(hour: int, date: int, previousDate: int, k: nat)
    ensures var slot := SlotAt(hour, date, previousDate, k);
      SlotAt(hour, date, previousDate, k + 1) == (NextHour(slot.0), NextDate(slot.0, slot.1, previousDate))
    decreases k
  {
    if k > 0 {
      SlotAtNext(NextHour(hour), NextDate(hour, date, previousDate), previousDate, k - 1);
    }
  }

  /** The `n` slots the countdown visits from (`hour`, `date`). */
  function Countdown(hour: int, date: int, previousDate: int, n: nat): seq<(int, int)> {
    seq(n, k requires 0 <= k < n => SlotAt(hour, date, previousDate, k))
  }

  /** From an hour of the day, the countdown visits that hour and the ones
      before it on `date`, then the hours from 23 down on the previous day. */
  lemma {:induction false} SlotAtClosed(hour: int, date: int, previousDate: int, k: nat)
    requires 0 <= hour <= 23 && k <= hour + 24
    ensures SlotAt(hour, date, previousDate, k) == if k <= hour then (hour - k, date) else (hour + 24 - k, previousDate)
    decreases k
  {
    if k > 0 {
      SlotAtClosed(NextHour(hour), NextDate(hour, date, previousDate), previousDate, k - 1);
    }
  }

  /** The stored value for a slot; a missing key reads as 0. */
  function Lookup(values: map<string, int>, slot: (int, int)): int {
    var key := HourKey(PadTwo(slot.1), PadTwo(slot.0));
    if key in values then values[key] else 0
  }

  /** The reading of every slot by `read`. */
  function MapSeq<A, B>(read: A -> B, s: seq<A>): (r: seq<B>)
    ensures |r| == |s|
  {
    seq(|s|, k requires 0 <= k < |s| => read(s[k]))
  }

  /** Mapping one more element adds its image at the end. */
  lemma MapSnoc<A, B>(read: A -> B, s: seq<A>, j: nat)
    requires j < |s|
    ensures MapSeq(read, s[..j + 1]) == MapSeq(read, s[..j]) + [read(s[j])]
  {
  }

  /** The hour of a slot, and the stored value of a slot. */
  function HourOf(slot: (int, int)): int {
    slot.0
  }

  function ValueOf(values: map<string, int>): Slot -> int {
    slot => Lookup(values, slot)
  }

  lemma ReadValue(values: map<string, int>, slot: Slot)
    ensures ValueOf(values)(slot) == Lookup(values, slot)
  {
  }

  /** `getDailyData`: 24 slots counted down from the start, then reversed
      into chronological order. */
  function DailyData(payload: seq<Entry>, startHour: int, startDate: int, previousDate: int): Result<DailySeries> {
    match HourlyValues(payload)
    case Err(message) => Err(message)
    case Ok(values) =>
      var slots := Countdown(startHour, startDate, previousDate, 24);
      Ok(DailySeries(Reversed(MapSeq(ValueOf(values), slots)), Reversed(MapSeq(HourOf, slots))))
  }

  /** An hour count below two days, taken modulo a day. */
  lemma WrapHour(x: int)
    requires 0 <= x < 48
    ensures x % 24 == if x >= 24 then x - 24 else x
  {
  }

  /** Read in chronological order, the countdown from an hour of the day
      runs through the hours after it on the previous day's date, then up
      to it on the start date. */
  lemma CountdownReversedAt<B>(read: Slot -> B, startHour: int, startDate: int, previousDate: int, k: nat)
    requires 0 <= startHour <= 23 && k < 24
    ensures Reversed(MapSeq(read, Countdown(startHour, startDate, previousDate, 24)))[k] ==
      read(((startHour + 1 + k) % 24, if k >= 23 - startHour then startDate else previousDate))
  {
    var slots := Countdown(startHour, startDate, previousDate, 24);
    ReversedAt(MapSeq(read, slots), k);
    SlotAtClosed(startHour, startDate, previousDate, 23 - k);
    WrapHour(startHour + 1 + k);
    assert slots[23 - k] == ((startHour + 1 + k) % 24, if k >= 23 - startHour then startDate else previousDate);
  }

  /** Started at an hour of the day, the series has 24 entries that run
      through every hour once, ending with the start hour; the hours after
      the start hour are read on the previous day's date, the rest on the
      start date. */
  lemma DailyDataShape(payload: seq<Entry>, startHour: int, startDate: int, previousDate: int)
    requires 0 <= startHour <= 23
    ensures var r := DailyData(payload, startHour, startDate, previousDate);
      && (r.Err? <==> HourlyValues(payload).Err?)
      && (r.Ok? ==>
            && |r.value.data| == 24 && |r.value.labels| == 24
            && r.value.labels[23] == startHour
            && forall k :: 0 <= k < 24 ==>
                 && r.value.labels[k] == (startHour + 1 + k) % 24
                 && r.value.data[k] == Lookup(HourlyValues(payload).value,
                                              ((startHour + 1 + k) % 24, if k >= 23 - startHour then startDate else previousDate)))
  {
    if HourlyValues(payload).Ok? {
      var values := HourlyValues(payload).value;
      var slots := Countdown(startHour, startDate, previousDate, 24);
      var data, labels := Reversed(MapSeq(ValueOf(values), slots)), Reversed(MapSeq(HourOf, slots));
      forall k | 0 <= k < 24
        ensures labels[k] == (startHour + 1 + k) % 24
        ensures data[k] == Lookup(values, ((startHour + 1 + k) % 24, if k >= 23 - startHour then startDate else previousDate))
      {
        CountdownReversedAt(HourOf, startHour, startDate, previousDate, k);
        CountdownReversedAt(ValueOf(values), startHour, startDate, previousDate, k);
        ReadValue(values, ((startHour + 1 + k) % 24, if k >= 23 - startHour then startDate else previousDate));
      }
      assert DailyData(payload, startHour, startDate, previousDate) == Ok(DailySeries(data, labels));
    }
  }

  /** The storing loop of `getDailyData`. */
  method StoreReadings(payload: seq<Entry>) returns (r: Result<map<string, int>>)
    ensures r == HourlyValues(payload)
  {
    var values: map<string, int> := map[];
    var i := 0;
    while i < |payload|
      invariant 0 <= i <= |payload|
      invariant HourlyValues(payload[..i]) == Ok(values)
    {
      var e := payload[i];
      assert payload[..i + 1][..i] == payload[..i] && payload[..i + 1][i] == e;
      var hour := HourText(e.dtm);
      var date := DateText(e.dtm);
      if hour.None? || date.None? {
        HourlyErrorSticks(payload, i + 1);
        return Err(UndefinedSubstring);
      }
      if hour.value !in values {
        values := values[HourKey(date.value, hour.value) := RoundHalfAway(e.value)];
      }
      i := i + 1;
    }
    assert payload[..i] == payload;
    r := Ok(values);
  }

  /** The countdown loop of `getDailyData`: 24 slots, newest first. */
  method CollectHours(values: map<string, int>, startHour: int, startDate: int, previousDate: int)
    returns (data: seq<int>, labels: seq<int>)
    ensures data == MapSeq(ValueOf(values), Countdown(startHour, startDate, previousDate, 24))
    ensures labels == MapSeq(HourOf, Countdown(startHour, startDate, previousDate, 24))
  {
    ghost var slots := Countdown(startHour, startDate, previousDate, 24);
    labels, data := [], [];
    var hour, date := startHour, startDate;
    while |labels| < 24
      invariant |data| == |labels| <= 24
      invariant (hour, date) == SlotAt(startHour, startDate, previousDate, |labels|)
      invariant labels == MapSeq(HourOf, slots[..|labels|]) && data == MapSeq(ValueOf(values), slots[..|labels|])
    {
      SlotAtNext(startHour, startDate, previousDate, |labels|);
      MapSnoc(HourOf, slots, |labels|);
      MapSnoc(ValueOf(values), slots, |labels|);
      labels := labels + [hour];
      var key := HourKey(PadTwo(date), PadTwo(hour));
      var value := if key in values then values[key] else 0;
      data := data + [value];
      hour := hour - 1;
      if hour < 0 {
        hour := 23;
        date := previousDate;
      }
    }
    assert slots[..24] == slots;
  }

  /** `getDailyData`, with the start hour and date of the countdown and the
      previous day's date passed in; the two series are reversed in place. */
  method GetDailyData(payload: seq<Entry>, startHour: int, startDate: int, previousDate: int)
    returns (r: Result<DailySeries>)
    ensures r == DailyData(payload, startHour, startDate, previousDate)
  {
    var stored := StoreReadings(payload);
    if stored.Err? {
      return Err(stored.message);
    }
    var data, labels := CollectHours(stored.value, startHour, startDate, previousDate);
    var dataArray := new int[24](k requires 0 <= k < 24 => data[k]);
    var labelArray := new int[24](k requires 0 <= k < 24 => labels[k]);
    assert dataArray[..] == data && labelArray[..] == labels;
    ReverseInPlace(dataArray);
    ReverseInPlace(labelArray);
    r := Ok(DailySeries(dataArray[..], labelArray[..]));
  }

  // The weekly and monthly series.

  /** `count` day labels, oldest first, where `ago(i)` is the labels of the
      day `i` days before today (`getDays` with 7, `getMonths` with 30). */
  method RecentDays(ago: nat -> string, count: nat) returns (days: seq<string>)
    ensures |days| == count
    ensures forall k :: 0 <= k < count ==> days[k] == ago(count - 1 - k)
    ensures count > 0 ==> days[count - 1] == ago(0)
  {
    days := [];
    var i := 0;
    while i < count
      invariant 0 <= i <= count && |days| == i
      invariant forall k :: 0 <= k < i ==> days[k] == ago(i - 1 - k)
    {
      days := [ago(i)] + days;
      i := i + 1;
    }
  }

  /** `DTM.split('T')[0].split('-')[2]` as an object key: "undefined" when
      the date part has fewer than two '-'. */
  function DayKey(dtm: string): string {
    var parts := Split(Split(dtm, 'T')[0], '-');
    if |parts| > 2 then parts[2] else "undefined"
  }

  type Positive = n: nat | n > 0 witness 1

  /** A day's running total and number of readings. */
  datatype Bucket = Bucket(sum: real, count: Positive)

  /** The buckets the grouping loop leaves after the readings `payload`. */
  function Buckets(payload: seq<Entry>): map<string, Bucket>
    decreases |payload|
  {
    if payload == [] then map[]
    else
      var before := Buckets(payload[..|payload| - 1]);
      var e := payload[|payload| - 1];
      var day := DayKey(e.dtm);
      if day in before then before[day := Bucket(before[day].sum + e.value, before[day].count + 1)]
      else before[day := Bucket(e.value, 1)]
  }

  /** The number of readings of a day, and their total. */
  function CountDay(payload: seq<Entry>, day: string): nat
    decreases |payload|
  {
    if payload == [] then 0
    else CountDay(payload[..|payload| - 1], day) + (if DayKey(payload[|payload| - 1].dtm) == day then 1 else 0)
  }

  function SumDay(payload: seq<Entry>, day: string): real
    decreases |payload|
  {
    if payload == [] then 0.0
    else SumDay(payload[..|payload| - 1], day) + (if DayKey(payload[|payload| - 1].dtm) == day then payload[|payload| - 1].value else 0.0)
  }

  /** A day has a bucket exactly when it has readings, and the bucket holds
      their number and their total. */
  lemma {:induction false} BucketsCount(payload: seq<Entry>, day: string)
    ensures day in Buckets(payload) <==> CountDay(payload, day) > 0
    ensures CountDay(payload, day) == 0 ==> SumDay(payload, day) == 0.0
    ensures day in Buckets(payload) ==>
      Buckets(payload)[day].count == CountDay(payload, day) && Buckets(payload)[day].sum == SumDay(payload, day)
    decreases |payload|
  {
    if payload != [] {
      BucketsCount(payload[..|payload| - 1], day);
    }
  }

  /** The grouping loop of `getWeeklyData` and `getMonthlyData`. */
  method GroupByDay(payload: seq<Entry>) returns (buckets: map<string, Bucket>)
    ensures buckets == Buckets(payload)
  {
    buckets := map[];
    var i := 0;
    while i < |payload|
      invariant 0 <= i <= |payload|
      invariant buckets == Buckets(payload[..i])
    {
      assert payload[..i + 1][..i] == payload[..i];
      var day := DayKey(payload[i].dtm);
      if day in buckets {
        buckets := buckets[day := Bucket(buckets[day].sum + payload[i].value, buckets[day].count + 1)];
      } else {
        buckets := buckets[day := Bucket(payload[i].value, 1)];
      }
      i := i + 1;
    }
    assert payload[..i] == payload;
  }

  /** A day's mean reading, or 0 for a day without readings. */
  function Average(buckets: map<string, Bucket>, day: string): real {
    if day in buckets then buckets[day].sum / buckets[day].count as real else 0.0
  }

  /** A day's value is the mean of its readings when it has any, else 0. */
  lemma AverageOfReadings(payload: seq<Entry>, day: string)
    ensures CountDay(payload, day) > 0 ==> Average(Buckets(payload), day) == SumDay(payload, day) / CountDay(payload, day) as real
    ensures CountDay(payload, day) == 0 ==> Average(Buckets(payload), day) == 0.0
  {
    BucketsCount(payload, day);
  }

  /** The labels and values of a per-day series over `days`. */
  method DaySeries(payload: seq<Entry>, days: seq<string>) returns (data: seq<real>, labels: seq<string>)
    ensures labels == days && |data| == |days|
    ensures forall j :: 0 <= j < |days| ==> data[j] == Average(Buckets(payload), days[j])
  {
    var buckets := GroupByDay(payload);
    data, labels := [], [];
    var j := 0;
    while j < |days|
      invariant 0 <= j <= |days| && |data| == j && labels == days[..j]
      invariant forall k :: 0 <= k < j ==> data[k] == Average(buckets, days[k])
    {
      var day := days[j];
      var value := if day in buckets then buckets[day].sum / buckets[day].count as real else 0.0;
      labels := labels + [day];
      data := data + [value];
      j := j + 1;
    }
  }

  /** `frameFilter`: the hourly series for 'daily', averages over the last
      7 days for 'weekly' and over the last 30 for 'monthly'; any other
      frame returns the payload as it is. */
  method Filter(payload: seq<Entry>, frame: string, startHour: int, startDate: int, previousDate: int,
                ago: nat -> string)
    returns (r: Framed)
    ensures frame == "daily" ==>
      (var d := DailyData(payload, startHour, startDate, previousDate);
       r == if d.Ok? then Hourly(d.value) else Threw(d.message))
    ensures frame == "weekly" || frame == "monthly" ==>
      var n := if frame == "weekly" then 7 else 30;
      && r.Days? && |r.labels| == n && |r.data| == n
      && (forall k :: 0 <= k < n ==> r.labels[k] == ago(n - 1 - k))
      && (forall k :: 0 <= k < n ==> r.data[k] == Average(Buckets(payload), r.labels[k]))
    ensures frame != "daily" && frame != "weekly" && frame != "monthly" ==> r == Unchanged(payload)
  {
    if frame == "daily" {
      var d := GetDailyData(payload, startHour, startDate, previousDate);
      r := if d.Ok? then Hourly(d.value) else Threw(d.message);
    } else if frame == "weekly" {
      var days := RecentDays(ago, 7);
      var data, labels := DaySeries(payload, days);
      r := Days(data, labels);
    } else if frame == "monthly" {
      var days := RecentDays(ago, 30);
      var data, labels := DaySeries(payload, days);
      r := Days(data, labels);
    } else {
      r := Unchanged(payload);
    }
  }
}
