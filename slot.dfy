/** The slot route: the day's bookable half-hour slots for a locality, generated
    from a fixed list of start times. `Math.random()` is an input stream `draw`
    of reals in [0, 1). */
module Slot {
  import opened Wrappers
  import opened Strings

  /** The base start times, morning, afternoon and evening lists concatenated. */
  const BaseTimes: seq<string> := [
    "09:00", "09:30", "10:00", "10:30", "11:00", "11:30",
    "12:00", "12:30", "13:00", "13:30", "14:00", "14:30",
    "15:00", "15:30", "16:00", "16:30", "17:00", "17:30", "18:00"]

  const MaxCapacity: int := 5

  /** "HH:MM" with two-digit hours and minutes below 60. */
  predicate IsClock(t: string) {
    |t| == 5 && IsDecimalDigit(t[0]) && IsDecimalDigit(t[1]) && t[2] == ':'
    && '0' <= t[3] <= '5' && IsDecimalDigit(t[4])
  }

  function ClockHour(t: string): nat
    requires IsClock(t)
  {
    10 * DigitValue(t[0]) + DigitValue(t[1])
  }

  /** Minutes since midnight of a clock time. */
  function ClockMinutes(t: string): nat
    requires IsClock(t)
  {
    60 * ClockHour(t) + 10 * DigitValue(t[3]) + DigitValue(t[4])
  }

  lemma ClockParts(t: string)
    requires IsClock(t)
    ensures Split(t, ':') == [t[..2], t[3..]]
  {
    assert t == t[..2] + [':'] + t[3..];
    SplitAfterWord(t[..2], ':', t[3..]);
    SplitOfWord(t[3..], ':');
  }

  /** The start times advance by half an hour from 09:00 to 18:00. */
  lemma BaseTimesAreHalfHours()
    ensures |BaseTimes| == 19
    ensures forall i :: 0 <= i < |BaseTimes| ==> IsClock(BaseTimes[i]) && ClockMinutes(BaseTimes[i]) == 540 + 30 * i
  {
  }

  lemma BaseTimeAt(i: nat)
    requires i < |BaseTimes|
    ensures IsClock(BaseTimes[i]) && ClockMinutes(BaseTimes[i]) == 540 + 30 * i
    ensures BaseTimes[i][3..] == (if i % 2 == 0 then "00" else "30")
  {
    BaseTimesAreHalfHours();
  }

  // ---------------------------------------------------------------------
  // end time and period of a slot

  /** `n.toString().padStart(2, '0')` for an integer; a negative number is
      already two characters long. */
  function IntPad2(n: int): string {
    if n >= 0 then Pad2(n) else "-" + NatToDecimal(-n)
  }

  /** The end time: split at ':', add one to the hour when the minutes are "30",
      pad the hour to two digits, and take "00" or "30" as the minutes. An hour that
      does not parse is NaN, and stays NaN. */
  function EndTime(time: string): string {
    var parts := Split(time, ':');
    var halfPast := |parts| >= 2 && parts[1] == "30";
    var hours := JsParseInt(parts[0]);
    var endMinute := if halfPast then "00" else "30";
    var hourText := if hours.None? then "NaN" else IntPad2(hours.value + (if halfPast then 1 else 0));
    hourText + ":" + endMinute
  }

  /** A slot that starts on the hour or the half hour ends thirty minutes later. */
  lemma EndTimeAddsHalfHour(time: string)
    requires IsClock(time) && (time[3..] == "00" || time[3..] == "30") && ClockHour(time) < 99
    ensures IsClock(EndTime(time))
    ensures ClockMinutes(EndTime(time)) == ClockMinutes(time) + 30
  {
    ClockParts(time);
    ParseIntOfTwoDigits(time[..2]);
    var e := EndTime(time);
    if time[3..] == "30" {
      assert time[3] == '3' && time[4] == '0';
    } else {
      assert time[3] == '0' && time[4] == '0';
    }
  }

  datatype Period = Morning | Afternoon | Evening

  /** `parseInt` of the text before ':': below 12 is morning, below 15 afternoon,
      anything else (NaN included) evening. */
  function GetPeriod(time: string): Period {
    var hour := JsParseInt(BeforeFirst(time, ':'));
    if hour.Some? && hour.value < 12 then Morning
    else if hour.Some? && hour.value < 15 then Afternoon
    else Evening
  }

  /** For a clock time the period is decided by the start: before noon, before three. */
  lemma PeriodOfClock(time: string)
    requires IsClock(time)
    ensures GetPeriod(time) == Morning <==> ClockMinutes(time) < 720
    ensures GetPeriod(time) == Afternoon <==> 720 <= ClockMinutes(time) < 900
    ensures GetPeriod(time) == Evening <==> 900 <= ClockMinutes(time)
  {
    ClockParts(time);
    ParseIntOfTwoDigits(time[..2]);
  }

  // ---------------------------------------------------------------------
  // the slot list

  /** `s.filter(x => x !== v)`. */
  function Without(s: seq<string>, v: string): (r: seq<string>)
  {
    if |s| == 0 then []
    else (if s[0] == v then [] else [s[0]]) + Without(s[1..], v)
  }

  lemma {:induction false} WithoutAbsent(s: seq<string>, v: string)
    requires v !in s
    ensures Without(s, v) == s
  {
    if |s| > 0 { WithoutAbsent(s[1..], v); }
  }

  /** Filtering out a value that occurs once removes exactly that position. */
  lemma {:induction false} WithoutOnce(s: seq<string>, v: string, i: nat)
    requires i < |s| && s[i] == v
    requires forall k :: 0 <= k < |s| && k != i ==> s[k] != v
    ensures Without(s, v) == s[..i] + s[i + 1..]
    decreases i
  {
    if i == 0 {
      WithoutAbsent(s[1..], v);
    } else {
      WithoutOnce(s[1..], v, i - 1);
      assert s[1..][..i - 1] + s[1..][i..] == s[1..i] + s[i + 1..];
      assert [s[0]] + s[1..i] == s[..i];
    }
  }

  lemma TwoPmOnlyAtTen()
    ensures forall k :: 0 <= k < |BaseTimes| ==> (BaseTimes[k] == "14:00" <==> k == 10)
  {
    BaseTimesAreHalfHours();
    assert IsClock("14:00") && ClockMinutes("14:00") == 840;
  }

  /** A locality whose lower-cased name contains "sodala". */
  predicate IsSodala(locality: string) {
    Contains(ToLower(locality), "sodala")
  }

  /** The start times of a locality: the base times, without 14:00 (the eleventh)
      for a Sodala locality. The list is written by position; `SlotTimesFilter`
      shows it is the filter the route applies. */
  function SlotTimes(locality: string): seq<string> {
    if IsSodala(locality) then BaseTimes[..10] + BaseTimes[11..] else BaseTimes
  }

  /** The per-locality list is `filter(slot => slot !== '14:00')` applied to the
      base times of a Sodala locality, and the base times otherwise. */
  lemma SlotTimesFilter(locality: string)
    ensures SlotTimes(locality) == (if IsSodala(locality) then Without(BaseTimes, "14:00") else BaseTimes)
  {
    TwoPmOnlyAtTen();
    WithoutOnce(BaseTimes, "14:00", 10);
  }

  /** Position in the base list of the k-th start time of a locality. */
  function BaseIndex(locality: string, k: nat): nat {
    if IsSodala(locality) && k >= 10 then k + 1 else k
  }

  /** The k-th start time of a locality is a base time. */
  lemma SlotTimeAt(locality: string, k: nat)
    requires k < |SlotTimes(locality)|
    ensures |SlotTimes(locality)| == (if IsSodala(locality) then 18 else 19)
    ensures BaseIndex(locality, k) < |BaseTimes| && SlotTimes(locality)[k] == BaseTimes[BaseIndex(locality, k)]
  {
    if IsSodala(locality) {
      if k >= 10 {
        assert SlotTimes(locality)[k] == BaseTimes[11..][k - 10];
      } else {
        assert SlotTimes(locality)[k] == BaseTimes[..10][k];
      }
    }
  }

  lemma SlotTimesLength(locality: string)
    ensures |SlotTimes(locality)| == (if IsSodala(locality) then 18 else 19)
  {
  }

  /** Filtering keeps exactly the other values. */
  lemma {:induction false} WithoutRemoves(s: seq<string>, v: string)
    ensures forall x :: x in Without(s, v) <==> x in s && x != v
  {
    if |s| > 0 {
      WithoutRemoves(s[1..], v);
      assert s == [s[0]] + s[1..];
    }
  }

  datatype Slot = Slot(
    id: string, startTime: string, endTime: string, date: string, locality: string,
    isAvailable: bool, maxCapacity: int, currentBookings: int, period: Period)

  function SlotId(locality: string, time: string, date: string): string {
    "slot-" + locality + "-" + time + "-" + date
  }

  /** One slot, drawing availability (`random() > 0.2`) and bookings
      (`floor(random() * 3)`) from two random numbers. */
  function MakeSlot(locality: string, date: string, time: string, r1: real, r2: real): Slot {
    Slot(SlotId(locality, time, date), time, EndTime(time), date, locality,
         r1 > 0.2, MaxCapacity, (r2 * 3.0).Floor, GetPeriod(time))
  }

  /** The slot of the k-th start time, drawing the random numbers 2k and 2k+1. */
  function SlotMaker(locality: string, date: string, draw: nat -> real): (string, nat) -> Slot {
    (time: string, k: nat) => MakeSlot(locality, date, time, draw(2 * k), draw(2 * k + 1))
  }

  /** The slots made by `mk` for the start times from position i on. */
  function SlotsFrom(times: seq<string>, mk: (string, nat) -> Slot, i: nat): (slots: seq<Slot>)
    requires i <= |times|
    ensures |slots| == |times| - i
    decreases |times| - i
  {
    if i == |times| then [] else [mk(times[i], i)] + SlotsFrom(times, mk, i + 1)
  }

  lemma {:induction false} SlotsFromAt(times: seq<string>, mk: (string, nat) -> Slot, i: nat, k: nat)
    requires i <= k < |times|
    ensures SlotsFrom(times, mk, i)[k - i] == mk(times[k], k)
    decreases k - i
  {
    if i < k {
      SlotsFromAt(times, mk, i + 1, k);
    }
  }

  /** The maker builds the slot of a time from the two random numbers of its position. */
  lemma MakerMakes(locality: string, date: string, draw: nat -> real, time: string, k: nat)
    ensures SlotMaker(locality, date, draw)(time, k) == MakeSlot(locality, date, time, draw(2 * k), draw(2 * k + 1))
  {
  }

  lemma SlotKeyAt(times: seq<string>, locality: string, date: string, draw: nat -> real, k: nat)
    requires k < |times|
    ensures SlotsFrom(times, SlotMaker(locality, date, draw), 0)[k].startTime == times[k]
    ensures SlotsFrom(times, SlotMaker(locality, date, draw), 0)[k].id == SlotId(locality, times[k], date)
  {
    SlotsFromAt(times, SlotMaker(locality, date, draw), 0, k);
    MakerMakes(locality, date, draw, times[k], k);
  }

  /** The slot list of a locality. */
  function SlotsFor(locality: string, date: string, draw: nat -> real): (slots: seq<Slot>)
    ensures |slots| == |SlotTimes(locality)|
  {
    SlotsFrom(SlotTimes(locality), SlotMaker(locality, date, draw), 0)
  }

  /** `generateSlotsForLocality`: the forEach over the start times. */
  method GenerateSlots(locality: string, date: Option<string>, today: string, draw: nat -> real)
    returns (slots: seq<Slot>)
    ensures slots == SlotsFor(locality, OrElse(date, today), draw)
  {
    var targetDate := OrElse(date, today);
    var times := SlotTimes(locality);
    ghost var mk := SlotMaker(locality, targetDate, draw);
    slots := [];
    for index := 0 to |times|
      invariant slots + SlotsFrom(times, mk, index) == SlotsFrom(times, mk, 0)
    {
      var time := times[index];
      var slot := MakeSlot(locality, targetDate, time, draw(2 * index), draw(2 * index + 1));
      MakerMakes(locality, targetDate, draw, time, index);
      assert SlotsFrom(times, mk, index) == [slot] + SlotsFrom(times, mk, index + 1);
      assert slots + ([slot] + SlotsFrom(times, mk, index + 1)) == (slots + [slot]) + SlotsFrom(times, mk, index + 1);
      slots := slots + [slot];
    }
    assert slots + [] == slots;
  }

  // ---------------------------------------------------------------------
  // what every generated list satisfies

  /** The k-th start time of a locality is a clock time from 09:00 to 18:00. */
  lemma SlotTimeInDay(locality: string, k: nat)
    requires k < |SlotTimes(locality)|
    ensures var t := SlotTimes(locality)[k];
      t in BaseTimes && IsClock(t) && 540 <= ClockMinutes(t) <= 1080
      && (t[3..] == "00" || t[3..] == "30")
  {
    SlotTimeAt(locality, k);
    var i := BaseIndex(locality, k);
    BaseTimeAt(i);
    assert SlotTimes(locality)[k] == BaseTimes[i];
  }

  /** The k-th slot is made from the k-th start time. */
  lemma SlotOf(times: seq<string>, locality: string, date: string, draw: nat -> real, k: nat)
    requires k < |times|
    ensures var s := SlotsFrom(times, SlotMaker(locality, date, draw), 0)[k];
      && s.startTime == times[k] && s.endTime == EndTime(times[k]) && s.period == GetPeriod(times[k])
      && s.date == date && s.locality == locality
      && s.maxCapacity == MaxCapacity && s.currentBookings == (draw(2 * k + 1) * 3.0).Floor
  {
    SlotsFromAt(times, SlotMaker(locality, date, draw), 0, k);
    MakerMakes(locality, date, draw, times[k], k);
  }

  /** Every slot starts at a base time between 09:00 and 18:00, on the target date
      and for the locality asked about. */
  lemma SlotsStartAtBaseTimes(locality: string, date: string, draw: nat -> real, k: nat)
    requires k < |SlotsFor(locality, date, draw)|
    ensures var s := SlotsFor(locality, date, draw)[k];
      && s.startTime in BaseTimes && s.date == date && s.locality == locality
      && IsClock(s.startTime) && 540 <= ClockMinutes(s.startTime) <= 1080
  {
    SlotOf(SlotTimes(locality), locality, date, draw, k);
    SlotTimeInDay(locality, k);
  }

  /** Every slot lasts half an hour, and its period is the one of its start:
      morning before noon, evening from three o'clock. */
  lemma SlotsLastHalfAnHour(locality: string, date: string, draw: nat -> real, k: nat)
    requires k < |SlotsFor(locality, date, draw)|
    ensures var s := SlotsFor(locality, date, draw)[k];
      && IsClock(s.startTime) && IsClock(s.endTime)
      && ClockMinutes(s.endTime) == ClockMinutes(s.startTime) + 30
      && (s.period == Morning <==> ClockMinutes(s.startTime) < 720)
      && (s.period == Evening <==> ClockMinutes(s.startTime) >= 900)
  {
    SlotOf(SlotTimes(locality), locality, date, draw, k);
    SlotTimeInDay(locality, k);
    var t := SlotTimes(locality)[k];
    EndTimeAddsHalfHour(t);
    PeriodOfClock(t);
  }

  /** With random numbers in [0, 1), every slot has capacity 5 and 0, 1 or 2 bookings. */
  lemma SlotsBelowCapacity(locality: string, date: string, draw: nat -> real, k: nat)
    requires forall n :: 0.0 <= draw(n) < 1.0
    requires k < |SlotsFor(locality, date, draw)|
    ensures var s := SlotsFor(locality, date, draw)[k];
      s.maxCapacity == 5 && 0 <= s.currentBookings < 3 && s.currentBookings < s.maxCapacity
  {
    SlotOf(SlotTimes(locality), locality, date, draw, k);
    var r := draw(2 * k + 1);
    assert 0.0 <= r * 3.0 < 3.0;
  }

  /** A Sodala locality has 18 slots and none at 14:00; any other has all 19, in order. */
  lemma SodalaSkipsTwoPm(locality: string, date: string, draw: nat -> real)
    ensures IsSodala(locality) ==>
      |SlotsFor(locality, date, draw)| == 18
      && forall k :: 0 <= k < 18 ==> SlotsFor(locality, date, draw)[k].startTime != "14:00"
    ensures !IsSodala(locality) ==>
      |SlotsFor(locality, date, draw)| == 19
      && forall k :: 0 <= k < 19 ==> SlotsFor(locality, date, draw)[k].startTime == BaseTimes[k]
  {
    var ts := SlotTimes(locality);
    SlotTimesLength(locality);
    forall k | 0 <= k < |ts|
      ensures SlotsFor(locality, date, draw)[k].startTime == ts[k] == BaseTimes[BaseIndex(locality, k)]
      ensures IsSodala(locality) ==> ts[k] != "14:00"
    {
      SlotKeyAt(ts, locality, date, draw, k);
      SlotTimeAt(locality, k);
      var i := BaseIndex(locality, k);
      BaseTimeAt(i);
      BaseTimeAt(10);
    }
  }

  /** The slot ids of one list are distinct: they differ in the start time. */
  lemma SlotIdsDistinct(locality: string, date: string, draw: nat -> real)
    ensures forall i, j :: 0 <= i < j < |SlotsFor(locality, date, draw)| ==>
      SlotsFor(locality, date, draw)[i].id != SlotsFor(locality, date, draw)[j].id
  {
    var slots := SlotsFor(locality, date, draw);
    var ts := SlotTimes(locality);
    forall i, j | 0 <= i < j < |slots| ensures slots[i].id != slots[j].id {
      SlotKeyAt(ts, locality, date, draw, i);
      SlotKeyAt(ts, locality, date, draw, j);
      SlotTimesDiffer(locality, i, j);
      SlotIdNamesTime(locality, ts[i], ts[j], date);
    }
  }

  /** Two positions of a locality's list hold different clock times. */
  lemma SlotTimesDiffer(locality: string, i: nat, j: nat)
    requires i < j < |SlotTimes(locality)|
    ensures IsClock(SlotTimes(locality)[i]) && IsClock(SlotTimes(locality)[j])
    ensures SlotTimes(locality)[i] != SlotTimes(locality)[j]
  {
    SlotTimeAt(locality, i);
    SlotTimeAt(locality, j);
    BaseTimeAt(BaseIndex(locality, i));
    BaseTimeAt(BaseIndex(locality, j));
  }

  /** The id spells out the start time at a fixed position. */
  lemma SlotIdNamesTime(locality: string, t1: string, t2: string, date: string)
    requires |t1| == 5 && |t2| == 5
    ensures SlotId(locality, t1, date) == SlotId(locality, t2, date) ==> t1 == t2
  {
    var p := |locality| + 6;
    assert SlotId(locality, t1, date)[p..p + 5] == t1;
    assert SlotId(locality, t2, date)[p..p + 5] == t2;
  }

  // ---------------------------------------------------------------------
  // GET /:locality

  datatype SlotsReply = SlotsReply(status: int, slots: seq<Slot>, locality: string, date: string, count: int)

  method GetSlots(locality: string, date: Option<string>, today: string, draw: nat -> real)
    returns (r: SlotsReply)
    ensures locality == "" ==> r.status == 400
    ensures locality != "" ==>
      && r.status == 200 && r.slots == SlotsFor(locality, OrElse(date, today), draw)
      && r.count == |r.slots| && r.date == OrElse(date, today) && r.locality == locality
  {
    if locality == "" {
      return SlotsReply(400, [], locality, "", 0);
    }
    var slots := GenerateSlots(locality, date, today, draw);
    r := SlotsReply(200, slots, locality, OrElse(date, today), |slots|);
  }
}
