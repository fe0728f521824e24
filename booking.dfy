/** The shared booking module: the bookings table, the slots a pending or
    confirmed booking holds, the fixed half-hour grid of a day, and the
    status changes. */
module Booking {
  import opened Wrappers
  import opened Text
  import opened Ordering

  const Pending := "pending"
  const Confirmed := "confirmed"
  const Cancelled := "cancelled"

  /** A row of the `bookings` table. */
  datatype BookingRec = BookingRec(id: nat, businessId: int, customerId: int, serviceId: int,
                                   date: string, time: string, status: string, notes: Option<string>)

  /** A pending or confirmed booking holds its business's slot on its date. */
  predicate Holds(b: BookingRec, businessId: int, date: string, time: string) {
    b.businessId == businessId && b.date == date && b.time == time
    && (b.status == Pending || b.status == Confirmed)
  }

  /** The `COUNT(*)` of `isTimeSlotAvailable`. */
  function CountHolding(rows: seq<BookingRec>, businessId: int, date: string, time: string): nat {
    if rows == [] then 0
    else CountHolding(rows[..|rows| - 1], businessId, date, time)
         + (if Holds(rows[|rows| - 1], businessId, date, time) then 1 else 0)
  }

  lemma {:induction false} CountZeroIff(rows: seq<BookingRec>, businessId: int, date: string, time: string)
    ensures CountHolding(rows, businessId, date, time) == 0
            <==> forall i | 0 <= i < |rows| :: !Holds(rows[i], businessId, date, time)
  {
    if rows != [] {
      var front := rows[..|rows| - 1];
      CountZeroIff(front, businessId, date, time);
      assert forall i | 0 <= i < |front| :: front[i] == rows[i];
    }
  }

  /** `isTimeSlotAvailable`: the count of holding bookings is zero, so exactly
      when no pending or confirmed booking of the business is at that date
      and time; cancelled and completed bookings never block. */
  function SlotAvailable(rows: seq<BookingRec>, businessId: int, date: string, time: string): (r: bool)
    ensures r <==> forall i | 0 <= i < |rows| :: !Holds(rows[i], businessId, date, time)
  {
    CountZeroIff(rows, businessId, date, time);
    CountHolding(rows, businessId, date, time) == 0
  }

  const StartHour := 9
  const EndHour := 17

  /** `n.toString().padStart(2, '0')` */
  function Pad2(n: nat): string {
    PadStart(NatToString(n), 2, '0')
  }

  /** The `${hour}:${minute}` slot name. */
  function SlotText(hour: nat, minute: nat): string {
    Pad2(hour) + ":" + Pad2(minute)
  }

  /** The `i`-th pass of the nested loops: hour `9 + i / 2`, minute 0 or 30. */
  function Slot(i: nat): string {
    SlotText(StartHour + i / 2, (i % 2) * 30)
  }

  /** `defaultSlots` once the nested loops have run. */
  function SlotGrid(): seq<string> {
    seq(2 * (EndHour - StartHour), i requires 0 <= i => Slot(i))
  }

  /** A zero-padded `HH:MM` string. */
  predicate IsClock(t: string) {
    |t| == 5 && IsDigit(t[0]) && IsDigit(t[1]) && t[2] == ':' && IsDigit(t[3]) && IsDigit(t[4])
  }

  /** Minutes after midnight of an `HH:MM` string. */
  function ClockMinutes(t: string): nat
    requires IsClock(t)
  {
    DigitsValue(t[..2]) * 60 + DigitsValue(t[3..])
  }

  lemma SlotIsClock(i: nat)
    requires i < 16
    ensures IsClock(Slot(i)) && ClockMinutes(Slot(i)) == 540 + 30 * i
  {
    var h, m := StartHour + i / 2, (i % 2) * 30;
    TwoDigits(h);
    TwoDigits(m);
    var t := Slot(i);
    assert t == Pad2(h) + ":" + Pad2(m);
    assert t[..2] == Pad2(h);
    assert t[3..] == Pad2(m);
  }

  /** The grid has 16 zero-padded entries, "09:00", "09:30", … "16:30", half
      an hour apart in ascending order. */
  lemma GridShape()
    ensures |SlotGrid()| == 16
    ensures forall i | 0 <= i < 16 :: IsClock(SlotGrid()[i]) && ClockMinutes(SlotGrid()[i]) == 540 + 30 * i
    ensures SlotGrid()[0] == "09:00" && SlotGrid()[15] == "16:30"
  {
    forall i | 0 <= i < 16
      ensures IsClock(SlotGrid()[i]) && ClockMinutes(SlotGrid()[i]) == 540 + 30 * i
    {
      SlotIsClock(i);
    }
    GridEnds();
  }

  /** The first slot is "09:00" and the last "16:30". */
  lemma GridEnds()
    ensures SlotGrid()[0] == "09:00" && SlotGrid()[15] == "16:30"
  {
    assert SlotGrid()[0] == SlotText(9, 0);
    assert SlotGrid()[15] == SlotText(16, 30);
    OneDigitPads();
    TwoDigitPads();
  }

  lemma OneDigitPads()
    ensures Pad2(9) == "09" && Pad2(0) == "00"
  {
    assert NatToString(9) == "9" && NatToString(0) == "0";
  }

  lemma TwoDigitPads()
    ensures Pad2(16) == "16" && Pad2(30) == "30"
  {
    assert NatToString(16) == "16" by {
      assert NatToString(1) == "1";
    }
    assert NatToString(30) == "30" by {
      assert NatToString(3) == "3";
    }
  }

  /** No slot name repeats, and a slot that is not zero-padded `HH:MM`, such
      as "9:30", is not on the grid. */
  lemma GridDistinct()
    ensures forall i, j | 0 <= i < j < 16 :: SlotGrid()[i] != SlotGrid()[j]
    ensures forall t | t in SlotGrid() :: IsClock(t)
  {
    GridShape();
  }

  /** The slots of `grid` available for the business and date, in grid order. */
  function FreeAmong(grid: seq<string>, rows: seq<BookingRec>, businessId: int, date: string): seq<string> {
    if grid == [] then []
    else
      var rest := FreeAmong(grid[..|grid| - 1], rows, businessId, date);
      var t := grid[|grid| - 1];
      if SlotAvailable(rows, businessId, date, t) then rest + [t] else rest
  }

  /** What `getAvailableTimeSlots` resolves with. */
  function FreeSlots(rows: seq<BookingRec>, businessId: int, date: string): seq<string> {
    FreeAmong(SlotGrid(), rows, businessId, date)
  }

  /** `idx` lists, in increasing order, the positions of `b` that spell `a`. */
  predicate EmbedsBy(a: seq<string>, b: seq<string>, idx: seq<nat>) {
    |idx| == |a|
    && (forall k | 0 <= k < |idx| :: idx[k] < |b| && b[idx[k]] == a[k])
    && (forall k, l | 0 <= k < l < |idx| :: idx[k] < idx[l])
  }

  /** `a` can be obtained from `b` by deleting elements. */
  ghost predicate IsSubsequence(a: seq<string>, b: seq<string>) {
    exists idx :: EmbedsBy(a, b, idx)
  }

  lemma {:induction false} FreeAmongEmbeds(grid: seq<string>, rows: seq<BookingRec>, businessId: int, date: string)
    returns (idx: seq<nat>)
    ensures EmbedsBy(FreeAmong(grid, rows, businessId, date), grid, idx)
  {
    if grid == [] {
      idx := [];
    } else {
      var front, t := grid[..|grid| - 1], grid[|grid| - 1];
      var inner := FreeAmongEmbeds(front, rows, businessId, date);
      var rest := FreeAmong(front, rows, businessId, date);
      assert forall k | 0 <= k < |inner| :: grid[inner[k]] == front[inner[k]];
      if SlotAvailable(rows, businessId, date, t) {
        idx := inner + [|front|];
        assert FreeAmong(grid, rows, businessId, date) == rest + [t];
        assert forall k | 0 <= k < |inner| :: idx[k] == inner[k];
      } else {
        idx := inner;
        assert FreeAmong(grid, rows, businessId, date) == rest;
      }
    }
  }

  /** The available list is the grid filtered in order: a subsequence of it,
      holding exactly the grid's available slots. */
  lemma {:induction false} FreeAmongFilters(grid: seq<string>, rows: seq<BookingRec>, businessId: int, date: string)
    ensures IsSubsequence(FreeAmong(grid, rows, businessId, date), grid)
    ensures forall t :: t in FreeAmong(grid, rows, businessId, date)
                        <==> t in grid && SlotAvailable(rows, businessId, date, t)
  {
    var idx := FreeAmongEmbeds(grid, rows, businessId, date);
    if grid != [] {
      var front, t := grid[..|grid| - 1], grid[|grid| - 1];
      FreeAmongFilters(front, rows, businessId, date);
      assert grid == front + [t];
    }
  }

  /** With no pending or confirmed booking for the business on the date, all
      of `grid` is available. */
  lemma {:induction false} AllFreeWhenUnheld(grid: seq<string>, rows: seq<BookingRec>, businessId: int, date: string)
    requires forall i | 0 <= i < |rows| :: !(rows[i].businessId == businessId && rows[i].date == date
                                             && (rows[i].status == Pending || rows[i].status == Confirmed))
    ensures FreeAmong(grid, rows, businessId, date) == grid
  {
    if grid != [] {
      AllFreeWhenUnheld(grid[..|grid| - 1], rows, businessId, date);
      assert grid == grid[..|grid| - 1] + [grid[|grid| - 1]];
    }
  }

  /** `xs` without the occurrences of `t`. */
  function Without(xs: seq<string>, t: string): seq<string> {
    if xs == [] then []
    else Without(xs[..|xs| - 1], t) + (if xs[|xs| - 1] != t then [xs[|xs| - 1]] else [])
  }

  /** Whether booking `b` occupies some slot of the business on the date. */
  predicate HoldsDay(b: BookingRec, businessId: int, date: string) {
    Holds(b, businessId, date, b.time)
  }

  /** One more booking changes the business's available list for the date only
      when it holds a slot there, and then removes exactly that slot. */
  lemma {:induction false} AddBookingEffect(grid: seq<string>, rows: seq<BookingRec>, b: BookingRec,
                                            businessId: int, date: string)
    ensures FreeAmong(grid, rows + [b], businessId, date) ==
            if HoldsDay(b, businessId, date) then Without(FreeAmong(grid, rows, businessId, date), b.time)
            else FreeAmong(grid, rows, businessId, date)
  {
    if grid != [] {
      var front, t := grid[..|grid| - 1], grid[|grid| - 1];
      AddBookingEffect(front, rows, b, businessId, date);
      var rows' := rows + [b];
      assert SlotAvailable(rows', businessId, date, t)
          <==> SlotAvailable(rows, businessId, date, t) && !Holds(b, businessId, date, t) by {
        assert forall i | 0 <= i < |rows| :: rows'[i] == rows[i];
        assert rows'[|rows|] == b;
      }
      var old_ := FreeAmong(front, rows, businessId, date);
      if SlotAvailable(rows, businessId, date, t) {
        assert (old_ + [t])[..|old_ + [t]| - 1] == old_;
      }
    }
  }

  /** `UPDATE bookings SET status = ? WHERE id = ?` */
  function WithStatus(rows: seq<BookingRec>, id: nat, status: string): seq<BookingRec> {
    seq(|rows|, i requires 0 <= i < |rows| => if rows[i].id == id then rows[i].(status := status) else rows[i])
  }

  /** A status change decides only whether the changed booking still holds its
      slot; every other booking holds what it held. */
  lemma StatusChangeAvailability(rows: seq<BookingRec>, id: nat, status: string,
                                 businessId: int, date: string, time: string)
    ensures SlotAvailable(WithStatus(rows, id, status), businessId, date, time) <==>
            forall i | 0 <= i < |rows| ::
              if rows[i].id == id then !Holds(rows[i].(status := status), businessId, date, time)
              else !Holds(rows[i], businessId, date, time)
  {
    var r := WithStatus(rows, id, status);
    assert forall i | 0 <= i < |rows| :: r[i] == if rows[i].id == id then rows[i].(status := status) else rows[i];
  }

  /** A status change leaves every field but the status, and every other booking, as it was. */
  lemma StatusChangeFrame(rows: seq<BookingRec>, id: nat, status: string)
    ensures |WithStatus(rows, id, status)| == |rows|
    ensures forall i | 0 <= i < |rows| ::
              WithStatus(rows, id, status)[i].(status := rows[i].status) == rows[i]
              && (rows[i].id != id ==> WithStatus(rows, id, status)[i] == rows[i])
              && (rows[i].id == id ==> WithStatus(rows, id, status)[i].status == status)
  {
  }

  /** Cancelling a booking frees its slot unless another booking holds it. */
  lemma CancelFrees(rows: seq<BookingRec>, k: nat)
    requires k < |rows|
    requires forall i | 0 <= i < |rows| && i != k :: rows[i].id != rows[k].id
                                                      && !Holds(rows[i], rows[k].businessId, rows[k].date, rows[k].time)
    ensures SlotAvailable(WithStatus(rows, rows[k].id, Cancelled), rows[k].businessId, rows[k].date, rows[k].time)
  {
    StatusChangeAvailability(rows, rows[k].id, Cancelled, rows[k].businessId, rows[k].date, rows[k].time);
  }

  /** The filters of `getBookings`; an empty value is absent (falsy). */
  datatype Filters = Filters(status: string, date: string, dateFrom: string)

  predicate Matches(b: BookingRec, businessId: int, f: Filters) {
    b.businessId == businessId
    && (f.status == "" || b.status == f.status)
    && (f.date == "" || b.date == f.date)
    && (f.dateFrom == "" || !StrLt(b.date, f.dateFrom))
  }

  /** `ORDER BY b.booking_date, b.booking_time` */
  function DateTimeKey(b: BookingRec): Key {
    Key(Some(b.date), b.time)
  }

  /** `getBookings`: the business's bookings passing the filters that are set,
      each as often as in the table, by date and then time. */
  function GetBookings(rows: seq<BookingRec>, businessId: int, f: Filters): (r: seq<BookingRec>)
    ensures forall b :: multiset(r)[b] == if Matches(b, businessId, f) then multiset(rows)[b] else 0
    ensures SortedBy(r, DateTimeKey)
  {
    SortBy(Select(rows, b => Matches(b, businessId, f)), DateTimeKey)
  }

  /** Pass `k` of the nested loops, at `hour` and `minute`, pushes the grid's `k`-th slot. */
  lemma SlotOfPass(hour: nat, minute: nat, k: nat)
    requires StartHour <= hour < EndHour
    requires (minute == 0 && k == 2 * (hour - StartHour)) || (minute == 30 && k == 2 * (hour - StartHour) + 1)
    ensures k < |SlotGrid()|
    ensures SlotGrid()[k] == SlotText(hour, minute)
  {
    assert k / 2 == hour - StartHour && k % 2 == minute / 30;
    assert SlotGrid()[k] == Slot(k);
  }

  /** The grid's first `k + 1` slots are its first `k` and the next one. */
  lemma GridPrefixStep(k: nat)
    requires k < |SlotGrid()|
    ensures SlotGrid()[..k + 1] == SlotGrid()[..k] + [SlotGrid()[k]]
  {
  }

  /** The nested `for` loops of `getAvailableTimeSlots` that fill `defaultSlots`. */
  method BuildGrid() returns (defaultSlots: seq<string>)
    ensures defaultSlots == SlotGrid()
  {
    defaultSlots := [];
    var hour := StartHour;
    ghost var k := 0;
    while hour < EndHour
      invariant StartHour <= hour <= EndHour
      invariant k == 2 * (hour - StartHour)
      invariant defaultSlots == SlotGrid()[..k]
    {
      var minute := 0;
      while minute < 60
        invariant (minute == 0 && k == 2 * (hour - StartHour)) || (minute == 30 && k == 2 * (hour - StartHour) + 1)
                  || (minute == 60 && k == 2 * (hour - StartHour) + 2)
        invariant defaultSlots == SlotGrid()[..k]
      {
        SlotOfPass(hour, minute, k);
        GridPrefixStep(k);
        defaultSlots := defaultSlots + [SlotText(hour, minute)];
        minute := minute + 30;
        k := k + 1;
      }
      hour := hour + 1;
    }
  }

  /** The bookings table; `nextId` is the id the next insert gets. */
  class BookingTable {
    var rows: seq<BookingRec>
    var nextId: nat

    /** Ids are positive, unique and below `nextId`. */
    ghost predicate Valid()
      reads this
    {
      1 <= nextId
      && (forall i | 0 <= i < |rows| :: 1 <= rows[i].id < nextId)
      && (forall i, j | 0 <= i < j < |rows| :: rows[i].id != rows[j].id)
    }

    constructor ()
      ensures Valid() && rows == [] && nextId == 1
    {
      rows := [];
      nextId := 1;
    }

    /** `createBooking`: inserts a pending booking with a fresh id, without any
        availability check, and returns the request's fields unchanged. */
    method CreateBooking(businessId: int, customerId: int, serviceId: int, date: string, time: string,
                         notes: Option<string>) returns (b: BookingRec)
      requires Valid()
      modifies this
      ensures Valid()
      ensures b == BookingRec(old(nextId), businessId, customerId, serviceId, date, time, Pending, notes)
      ensures rows == old(rows) + [b]
      ensures forall i | 0 <= i < |old(rows)| :: old(rows)[i].id != b.id
    {
      b := BookingRec(nextId, businessId, customerId, serviceId, date, time, Pending, notes);
      rows := rows + [b];
      nextId := nextId + 1;
    }

    /** `updateBookingStatus`: `changes` is the number of rows updated. */
    method UpdateBookingStatus(id: nat, status: string) returns (changes: nat)
      requires Valid()
      modifies this`rows
      ensures Valid()
      ensures rows == WithStatus(old(rows), id, status)
      ensures changes == 1 <==> exists i | 0 <= i < |old(rows)| :: old(rows)[i].id == id
      ensures changes <= 1
    {
      changes := if exists i | 0 <= i < |rows| :: rows[i].id == id then 1 else 0;
      rows := WithStatus(rows, id, status);
    }

    method CancelBooking(id: nat) returns (changes: nat)
      requires Valid()
      modifies this`rows
      ensures Valid()
      ensures rows == WithStatus(old(rows), id, Cancelled)
      ensures changes == 1 <==> exists i | 0 <= i < |old(rows)| :: old(rows)[i].id == id
    {
      changes := UpdateBookingStatus(id, Cancelled);
    }

    method ConfirmBooking(id: nat) returns (changes: nat)
      requires Valid()
      modifies this`rows
      ensures Valid()
      ensures rows == WithStatus(old(rows), id, Confirmed)
      ensures changes == 1 <==> exists i | 0 <= i < |old(rows)| :: old(rows)[i].id == id
    {
      changes := UpdateBookingStatus(id, Confirmed);
    }

    /** `getAvailableTimeSlots`: builds the grid, then keeps the available
        slots in order. `businessHours` is not read. */
    method GetAvailableTimeSlots(businessId: int, date: string, businessHours: Option<string>)
      returns (slots: seq<string>)
      ensures slots == FreeSlots(rows, businessId, date)
    {
      var defaultSlots := BuildGrid();
      slots := [];
      for k := 0 to |defaultSlots|
        invariant slots == FreeAmong(defaultSlots[..k], rows, businessId, date)
      {
        assert defaultSlots[..k + 1][..k] == defaultSlots[..k];
        if SlotAvailable(rows, businessId, date, defaultSlots[k]) {
          slots := slots + [defaultSlots[k]];
        }
      }
      assert defaultSlots[..|defaultSlots|] == defaultSlots;
    }
  }
}
