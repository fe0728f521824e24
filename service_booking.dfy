/** What the barber and car wash handlers share: the services catalogue
    reply, the booking request (service, date and time picked out of the
    message, then check-then-book against the slot grid), cancelling by the
    first number in the message, and the customer's booking list. */
module ServiceBooking {
  import opened Wrappers
  import opened Text
  import opened Ordering
  import opened Booking
  import opened Outbound
  import opened Generic

  /** A row of `services`: price in cents, `NULL` description "", `NULL`
      duration 0. */
  datatype Service = Service(id: int, name: string, description: string, price: nat, duration: nat)

  // -------------------------------------------------------------- prices

  /** `price.toFixed(2)` of a price held in cents. */
  function Money(cents: nat): string {
    NatToString(cents / 100) + "." + Pad2(cents % 100)
  }

  /** The rendered price reads back as the amount: whole rands, a point, and
      exactly two digits of cents. */
  lemma MoneyValue(cents: nat)
    ensures var whole := NatToString(cents / 100);
            var m := Money(cents);
            m == whole + "." + m[|whole| + 1..] && |m| == |whole| + 3
            && DigitsValue(whole) * 100 + DigitsValue(m[|whole| + 1..]) == cents
  {
    var whole := NatToString(cents / 100);
    NatToStringValue(cents / 100);
    TwoDigits(cents % 100);
    assert Money(cents)[|whole| + 1..] == Pad2(cents % 100);
  }

  // ------------------------------------------------------ services reply

  /** One language's labels of `formatServicesList`. */
  datatype ListLabels = ListLabels(title: string, duration: string, price: string)

  const NameOpen := ". *"
  const NameClose := "*\n"
  const Indent := "   "
  const Newline := "\n"
  const Space := " "
  const Minutes := " min\n"

  /** The lines of the `index`-th service. */
  function ServiceEntry(labels: ListLabels, index: nat, s: Service): string {
    NatToString(index + 1) + NameOpen + s.name + NameClose
    + (if s.description != "" then Indent + s.description + Newline else [])
    + Indent + labels.price + Money(s.price) + Newline
    + (if s.duration != 0 then Indent + labels.duration + Space + NatToString(s.duration) + Minutes else [])
    + Newline
  }

  function ServiceEntries(labels: ListLabels, services: seq<Service>): string {
    if services == [] then ""
    else ServiceEntries(labels, services[..|services| - 1])
         + ServiceEntry(labels, |services| - 1, services[|services| - 1])
  }

  /** The whole services reply: title, one numbered entry per service in
      catalogue order, then the module's footer. */
  function ServicesText(labels: ListLabels, services: seq<Service>, footer: string): string {
    labels.title + Blank + ServiceEntries(labels, services) + footer
  }

  /** The entries of one more service are those before it and its own. */
  lemma EntriesStep(labels: ListLabels, services: seq<Service>, index: nat)
    requires index < |services|
    ensures ServiceEntries(labels, services[..index + 1])
            == ServiceEntries(labels, services[..index]) + ServiceEntry(labels, index, services[index])
  {
    assert services[..index + 1][..index] == services[..index];
  }

  /** `formatServicesList`: the `forEach` appending one entry per service. */
  method FormatServicesList(labels: ListLabels, services: seq<Service>, footer: string) returns (response: string)
    ensures response == ServicesText(labels, services, footer)
  {
    var head := labels.title + Blank;
    response := head;
    for index := 0 to |services|
      invariant response == head + ServiceEntries(labels, services[..index])
    {
      EntriesStep(labels, services, index);
      var entry := ServiceEntry(labels, index, services[index]);
      AppendAssoc(head, ServiceEntries(labels, services[..index]), entry);
      response := response + entry;
    }
    assert services[..|services|] == services;
    response := response + footer;
  }

  /** Every service's entry, in order, is part of the reply. */
  lemma {:induction false} EntriesListEveryService(labels: ListLabels, services: seq<Service>, i: nat)
    requires i < |services|
    ensures Contains(ServiceEntries(labels, services), ServiceEntry(labels, i, services[i]))
  {
    var front := services[..|services| - 1];
    var e := ServiceEntries(labels, front);
    var last := ServiceEntry(labels, |services| - 1, services[|services| - 1]);
    assert ServiceEntries(labels, services) == e + last;
    if i == |services| - 1 {
      ContainsInfix(e, last, "");
      assert e + last + "" == e + last;
    } else {
      EntriesListEveryService(labels, front, i);
      assert front[i] == services[i];
      assert (e + last)[..|e|] == e;
      StartsWithContains(e + last, e);
      ContainsTransitive(e + last, e, ServiceEntry(labels, i, services[i]));
    }
  }

  // ----------------------------------------------------- service choice

  /** The first service at or after `k` whose lower-cased name occurs in `lowered`. */
  function ChosenFrom(services: seq<Service>, lowered: string, k: nat): (r: Option<nat>)
    ensures r.Some? ==> k <= r.value < |services| && Contains(lowered, ToLower(services[r.value].name))
    ensures r.Some? ==> forall j | k <= j < r.value :: !Contains(lowered, ToLower(services[j].name))
    ensures r.None? ==> forall j | k <= j < |services| :: !Contains(lowered, ToLower(services[j].name))
    decreases |services| - k
  {
    if k >= |services| then None
    else if Contains(lowered, ToLower(services[k].name)) then Some(k)
    else ChosenFrom(services, lowered, k + 1)
  }

  /** The `serviceName` the `for … break` loop leaves, "" for `null`. */
  function ServiceNameIn(services: seq<Service>, messageText: string): string {
    match ChosenFrom(services, ToLower(messageText), 0)
    case Some(i) => services[i].name
    case None => ""
  }

  /** The loop over the services that stops at the first match. */
  method PickService(services: seq<Service>, messageText: string) returns (serviceName: string)
    ensures serviceName == ServiceNameIn(services, messageText)
  {
    var lowered := ToLower(messageText);
    serviceName := "";
    var k := 0;
    while k < |services|
      invariant 0 <= k <= |services|
      invariant ChosenFrom(services, lowered, 0) == ChosenFrom(services, lowered, k)
    {
      if Contains(lowered, ToLower(services[k].name)) {
        serviceName := services[k].name;
        break;
      }
      k := k + 1;
    }
  }

  /** `services.find(s => s.name.toLowerCase() === name.toLowerCase())`. */
  function FindByName(services: seq<Service>, name: string): (r: Option<Service>)
    ensures r.Some? ==> r.value in services && ToLower(r.value.name) == ToLower(name)
    ensures r.None? ==> forall j | 0 <= j < |services| :: ToLower(services[j].name) != ToLower(name)
  {
    if services == [] then None
    else if ToLower(services[0].name) == ToLower(name) then Some(services[0])
    else
      var r := FindByName(services[1..], name);
      assert forall j | 0 < j < |services| :: services[j] == services[1..][j - 1];
      r
  }

  /** The name the loop picked always leads `find` back to the service it was
      picked from, so "Service not found" is never sent. */
  lemma FindChosen(services: seq<Service>, messageText: string)
    requires ChosenFrom(services, ToLower(messageText), 0).Some?
    ensures var i := ChosenFrom(services, ToLower(messageText), 0).value;
            FindByName(services, services[i].name) == Some(services[i])
  {
    var lowered := ToLower(messageText);
    var i := ChosenFrom(services, lowered, 0).value;
    FindPrefix(services, services[i].name, lowered, i);
  }

  lemma {:induction false} FindPrefix(services: seq<Service>, name: string, lowered: string, i: nat)
    requires i < |services| && services[i].name == name
    requires forall j | 0 <= j < i :: !Contains(lowered, ToLower(services[j].name))
    requires Contains(lowered, ToLower(name))
    ensures FindByName(services, name) == Some(services[i])
  {
    if i > 0 {
      assert ToLower(services[0].name) != ToLower(name);
      FindPrefix(services[1..], name, lowered, i - 1);
    }
  }

  // ------------------------------------------------------ date and time

  const Today := "today"
  const Tomorrow := "tomorrow"

  /** The first `YYYY-MM-DD` in the message; else `today` when the message
      says "today", else `tomorrow` when it says "tomorrow" (both as the
      clock gives them, passed in); "" when none applies. */
  function BookingDate(messageText: string, today: string, tomorrow: string): (r: string)
    ensures MatchDate(messageText).Some? ==> r == MatchDate(messageText).value
    ensures MatchDate(messageText).None? && Contains(messageText, Today) ==> r == today
    ensures MatchDate(messageText).None? && !Contains(messageText, Today) && Contains(messageText, Tomorrow) ==> r == tomorrow
    ensures MatchDate(messageText).None? && !Contains(messageText, Today) && !Contains(messageText, Tomorrow) ==> r == ""
  {
    match MatchDate(messageText)
    case Some(d) => d
    case None =>
      if Contains(messageText, Today) then today
      else if Contains(messageText, Tomorrow) then tomorrow
      else ""
  }

  /** The first `H:MM` or `HH:MM` in the message, "" when there is none; it is
      kept as matched, without padding. */
  function BookingTime(messageText: string): (r: string)
    ensures r != "" ==> (|r| == 4 || |r| == 5)
    ensures r == "" <==> FirstTimeAt(messageText, 0).None?
    ensures r != "" ==> var i := FirstTimeAt(messageText, 0).value;
                        r == messageText[i..i + TimeLenAt(messageText, i)]
  {
    match MatchTime(messageText)
    case Some(t) => t
    case None => ""
  }

  // ---------------------------------------------------- booking request

  /** Where a booking request ends. */
  datatype Plan =
    | Usage
    | NoService
    | Unavailable(time: string, date: string, free: seq<string>)
    | Book(service: Service, date: string, time: string)

  /** `handleBookingRequest` up to the insert, once the date and time are
      read: a missing service, date or time gives the usage text; a time not
      among the free slots of that date gives the slot list; otherwise the
      booking is made. */
  function PlanFor(services: seq<Service>, messageText: string, date: string, time: string,
                   rows: seq<BookingRec>, businessId: int): (p: Plan)
    ensures p.Usage? <==> ServiceNameIn(services, messageText) == "" || date == "" || time == ""
    ensures !p.NoService?
    ensures p.Unavailable? ==> p.time == time && p.date == date
                               && p.free == FreeSlots(rows, businessId, date) && time !in p.free
    ensures p.Book? ==> p.time == time && p.date == date && time in FreeSlots(rows, businessId, date)
                        && p.service in services && Contains(ToLower(messageText), ToLower(p.service.name))
    ensures p.Book? ==> ChosenFrom(services, ToLower(messageText), 0).Some?
                        && p.service == services[ChosenFrom(services, ToLower(messageText), 0).value]
  {
    var name := ServiceNameIn(services, messageText);
    if name == "" || date == "" || time == "" then Usage
    else
      FindChosen(services, messageText);
      match FindByName(services, name)
      case None => NoService
      case Some(s) =>
        var free := FreeSlots(rows, businessId, date);
        if time in free then Book(s, date, time) else Unavailable(time, date, free)
  }

  /** The request as the handlers read it: the date and the time as matched. */
  function PlanBooking(services: seq<Service>, messageText: string, today: string, tomorrow: string,
                       rows: seq<BookingRec>, businessId: int): Plan {
    PlanFor(services, messageText, BookingDate(messageText, today, tomorrow), BookingTime(messageText), rows, businessId)
  }

  /** A booking is only ever made in a slot that is on the grid and that no
      pending or confirmed booking of the business holds. */
  lemma BookedSlotWasFree(services: seq<Service>, messageText: string, today: string, tomorrow: string,
                          rows: seq<BookingRec>, businessId: int)
    ensures var p := PlanBooking(services, messageText, today, tomorrow, rows, businessId);
            p.Book? ==> p.time in SlotGrid() && SlotAvailable(rows, businessId, p.date, p.time)
  {
    var p := PlanBooking(services, messageText, today, tomorrow, rows, businessId);
    if p.Book? {
      FreeAmongFilters(SlotGrid(), rows, businessId, p.date);
    }
  }

  /** A time written without its leading zero, such as "9:30", is never on
      the grid, so it can never be booked. */
  lemma UnpaddedNeverBooked(services: seq<Service>, messageText: string, today: string, tomorrow: string,
                            rows: seq<BookingRec>, businessId: int)
    requires |BookingTime(messageText)| == 4
    ensures !PlanBooking(services, messageText, today, tomorrow, rows, businessId).Book?
  {
    BookedSlotWasFree(services, messageText, today, tomorrow, rows, businessId);
    GridDistinct();
  }

  const NotFoundText := "Service not found. Reply \"services\" to see available services."
  const SlotHead := "Time slot "
  const SlotMid := " is not available.\n\nAvailable times for "
  const SlotsLine := ":\n"
  const ConfirmHead := "✅ Booking Created!\n\nService: "
  const DateLabel := "\nDate: "
  const TimeLabel := "\nTime: "
  const PriceLabel := "\nPrice: R"
  const ConfirmTail := "\n\nWe'll send you a reminder before your appointment."

  /** `slots.join(', ')` */
  function JoinComma(slots: seq<string>): string {
    if slots == [] then ""
    else if |slots| == 1 then slots[0]
    else slots[0] + ", " + JoinComma(slots[1..])
  }

  /** `slots.slice(0, 10)` */
  function FirstTen(slots: seq<string>): (r: seq<string>)
    ensures |r| <= 10 && |r| <= |slots| && r == slots[..|r|]
    ensures |slots| <= 10 ==> r == slots
  {
    if |slots| <= 10 then slots else slots[..10]
  }

  function UnavailableText(time: string, date: string, free: seq<string>): string {
    SlotHead + time + SlotMid + date + SlotsLine + JoinComma(FirstTen(free))
  }

  function Confirmation(s: Service, date: string, time: string): string {
    ConfirmHead + s.name + DateLabel + date + TimeLabel + time + PriceLabel + Money(s.price) + ConfirmTail
  }

  /** The confirmation names the service, the date and the time booked. */
  lemma ConfirmationMentions(s: Service, date: string, time: string)
    ensures Contains(Confirmation(s, date, time), s.name)
    ensures Contains(Confirmation(s, date, time), date)
    ensures Contains(Confirmation(s, date, time), time)
  {
    ContainsFields(ConfirmHead, s.name, DateLabel, date, TimeLabel, time, PriceLabel + Money(s.price) + ConfirmTail);
    assert ConfirmHead + s.name + DateLabel + date + TimeLabel + time + (PriceLabel + Money(s.price) + ConfirmTail)
        == Confirmation(s, date, time);
  }

  /** The reply to a request that made no booking; `usage` is the module's
      localised usage text. */
  function PlanReply(p: Plan, usage: string): string {
    match p
    case Usage => usage
    case NoService => NotFoundText
    case Unavailable(time, date, free) => UnavailableText(time, date, free)
    case Book(s, date, time) => Confirmation(s, date, time)
  }

  /** What a booking request does to the table and the send log: one pending
      booking inserted and the confirmation sent to the customer when the
      plan is to book, nothing otherwise. */
  predicate BookingEffect(p: Plan, rows0: seq<BookingRec>, next0: nat, log0: seq<Entry>,
                          rows1: seq<BookingRec>, next1: nat, log1: seq<Entry>, env: Env,
                          businessId: int, customer: Customer, reply: string) {
    if p.Book? then
      rows1 == rows0 + [BookingRec(next0, businessId, customer.id, p.service.id, p.date, p.time, Pending, None)]
      && log1 == log0 + PostGeneric(env, customer.phone, reply, Some(businessId)).entries
    else rows1 == rows0 && next1 == next0 && log1 == log0
  }

  /** `handleBookingRequest`: on success one pending booking is inserted, and
      the confirmation is both sent to the customer and returned; otherwise
      nothing is inserted or sent. */
  method HandleBookingRequest(table: BookingTable, outbox: Outbox, businessId: int, customer: Customer,
                              services: seq<Service>, messageText: string, usage: string,
                              today: string, tomorrow: string) returns (reply: string)
    requires table.Valid()
    modifies table, outbox`log
    ensures table.Valid()
    ensures var p := PlanBooking(services, messageText, today, tomorrow, old(table.rows), businessId);
            reply == PlanReply(p, usage)
            && BookingEffect(p, old(table.rows), old(table.nextId), old(outbox.log), table.rows, table.nextId,
                             outbox.log, outbox.env, businessId, customer, reply)
  {
    var serviceName := PickService(services, messageText);
    var date := BookingDate(messageText, today, tomorrow);
    var time := BookingTime(messageText);
    ghost var p := PlanBooking(services, messageText, today, tomorrow, table.rows, businessId);
    if serviceName == "" || date == "" || time == "" {
      return usage;
    }
    var service := FindByName(services, serviceName);
    if service.None? {
      return NotFoundText;
    }
    var availableSlots := table.GetAvailableTimeSlots(businessId, date, None);
    if time !in availableSlots {
      return UnavailableText(time, date, availableSlots);
    }
    assert p == Book(service.value, date, time);
    var booking := table.CreateBooking(businessId, customer.id, service.value.id, date, time, None);
    reply := Confirmation(service.value, date, time);
    var _ := outbox.SendWhatsAppMessage(customer.phone, reply, Some(businessId));
  }

  /** `getOperatingHours(business)` as a handler's reply; `Err` where it throws. */
  function HoursReply(business: Business): (r: Result<Option<string>>)
    ensures r.Ok? <==> !business.hours.NoHours?
    ensures r.Ok? ==> r.value == HoursMessage(business)
  {
    match HoursMessage(business)
    case None => Err("TypeError")
    case Some(t) => Ok(Some(t))
  }

  // ------------------------------------------------------------- cancel

  /** A pending or confirmed booking of the customer at the business. */
  predicate ActiveFor(b: BookingRec, customerId: int, businessId: int) {
    b.customerId == customerId && b.businessId == businessId && (b.status == Pending || b.status == Confirmed)
  }

  /** The cancel query: the customer's active bookings by date and time. */
  function ActiveBookings(rows: seq<BookingRec>, customerId: int, businessId: int): (r: seq<BookingRec>)
    ensures forall b :: multiset(r)[b] == if ActiveFor(b, customerId, businessId) then multiset(rows)[b] else 0
    ensures SortedBy(r, DateTimeKey)
  {
    SortBy(Select(rows, b => ActiveFor(b, customerId, businessId)), DateTimeKey)
  }

  /** Where a cancel request ends. */
  datatype CancelPlan = NoActive | CancelOne(id: nat) | ListActive(bookings: seq<BookingRec>)

  predicate HasId(bs: seq<BookingRec>, id: nat) {
    exists i | 0 <= i < |bs| :: bs[i].id == id
  }

  /** `handleCancelBooking` up to the update: nothing active, the booking
      whose id is the first number in the message, or the list. */
  function PlanCancel(rows: seq<BookingRec>, customerId: int, businessId: int, messageText: string): (p: CancelPlan)
    ensures p.NoActive? <==> forall i | 0 <= i < |rows| :: !ActiveFor(rows[i], customerId, businessId)
    ensures p.CancelOne? <==> MatchNumber(messageText).Some?
                              && HasId(ActiveBookings(rows, customerId, businessId), MatchNumber(messageText).value)
    ensures p.CancelOne? ==> p.id == MatchNumber(messageText).value
    ensures p.ListActive? ==> p.bookings == ActiveBookings(rows, customerId, businessId)
  {
    var active := ActiveBookings(rows, customerId, businessId);
    assert active == [] <==> forall i | 0 <= i < |rows| :: !ActiveFor(rows[i], customerId, businessId) by {
      if active == [] {
        forall i | 0 <= i < |rows| ensures !ActiveFor(rows[i], customerId, businessId) {
          assert multiset(active)[rows[i]] == 0;
          assert rows[i] in multiset(rows);
        }
      } else {
        assert active[0] in multiset(active);
        assert active[0] in multiset(rows);
      }
    }
    if active == [] then NoActive
    else match MatchNumber(messageText)
      case Some(n) => if HasId(active, n) then CancelOne(n) else ListActive(active)
      case None => ListActive(active)
  }

  /** No two rows share an id. */
  predicate UniqueIds(rows: seq<BookingRec>) {
    forall i, j | 0 <= i < j < |rows| :: rows[i].id != rows[j].id
  }

  /** A cancel by id changes exactly one row: an active booking of this
      customer at this business, which becomes cancelled. */
  lemma CancelOnlyOwnBooking(rows: seq<BookingRec>, customerId: int, businessId: int, messageText: string)
    requires UniqueIds(rows)
    requires PlanCancel(rows, customerId, businessId, messageText).CancelOne?
    ensures var n := PlanCancel(rows, customerId, businessId, messageText).id;
            var after := WithStatus(rows, n, Cancelled);
            exists k | 0 <= k < |rows| :: ActiveFor(rows[k], customerId, businessId) && rows[k].id == n
                                         && after[k] == rows[k].(status := Cancelled)
                                         && forall i | 0 <= i < |rows| && i != k :: after[i] == rows[i]
  {
    var n := PlanCancel(rows, customerId, businessId, messageText).id;
    var active := ActiveBookings(rows, customerId, businessId);
    var a :| 0 <= a < |active| && active[a].id == n;
    assert active[a] in multiset(active);
    assert active[a] in multiset(rows);
    var k :| 0 <= k < |rows| && rows[k] == active[a];
    StatusChangeFrame(rows, n, Cancelled);
  }

  const NoActiveText := "You have no active bookings to cancel."
  const CancelledText := "✅ Your booking has been cancelled."
  const ActiveHead := "Your active bookings:\n\n"
  const ActiveFoot := "Reply \"cancel #[booking number]\" to cancel a specific booking."

  /** `${booking.service_name}` from the `LEFT JOIN`: "null" without a service row. */
  function ServiceLabel(names: map<int, string>, serviceId: int): string {
    if serviceId in names then names[serviceId] else "null"
  }

  const Hash := "#"
  const Dash := " - "
  const DateLine := "\nDate: "
  const Blank := "\n\n"
  const StatusLine := "\nStatus: "

  function ActiveEntry(names: map<int, string>, b: BookingRec): string {
    Hash + NatToString(b.id) + Dash + ServiceLabel(names, b.serviceId) + DateLine + b.date + Space + b.time + Blank
  }

  function ActiveEntries(names: map<int, string>, bs: seq<BookingRec>): string {
    if bs == [] then "" else ActiveEntries(names, bs[..|bs| - 1]) + ActiveEntry(names, bs[|bs| - 1])
  }

  lemma ActiveEntriesStep(names: map<int, string>, bs: seq<BookingRec>, k: nat)
    requires k < |bs|
    ensures ActiveEntries(names, bs[..k + 1]) == ActiveEntries(names, bs[..k]) + ActiveEntry(names, bs[k])
  {
    assert bs[..k + 1][..k] == bs[..k];
  }

  function CancelReply(p: CancelPlan, names: map<int, string>): string {
    match p
    case NoActive => NoActiveText
    case CancelOne(_) => CancelledText
    case ListActive(bs) => ActiveHead + ActiveEntries(names, bs) + ActiveFoot
  }

  /** `handleCancelBooking`; `names` maps service ids to names for the join. */
  method HandleCancelBooking(table: BookingTable, businessId: int, customer: Customer, messageText: string,
                             names: map<int, string>) returns (reply: string)
    requires table.Valid()
    modifies table`rows
    ensures table.Valid()
    ensures var p := PlanCancel(old(table.rows), customer.id, businessId, messageText);
            reply == CancelReply(p, names)
            && table.rows == (if p.CancelOne? then WithStatus(old(table.rows), p.id, Cancelled) else old(table.rows))
  {
    var bookings := ActiveBookings(table.rows, customer.id, businessId);
    ghost var p := PlanCancel(table.rows, customer.id, businessId, messageText);
    if |bookings| == 0 {
      return NoActiveText;
    }
    var idMatch := MatchNumber(messageText);
    if idMatch.Some? && HasId(bookings, idMatch.value) {
      var _ := table.UpdateBookingStatus(idMatch.value, Cancelled);
      return CancelledText;
    }
    reply := ListActiveBookings(bookings, names);
  }

  /** The `forEach` that lists the active bookings. */
  method ListActiveBookings(bookings: seq<BookingRec>, names: map<int, string>) returns (reply: string)
    ensures reply == CancelReply(ListActive(bookings), names)
  {
    var response := ActiveHead;
    for k := 0 to |bookings|
      invariant response == ActiveHead + ActiveEntries(names, bookings[..k])
    {
      ActiveEntriesStep(names, bookings, k);
      var entry := ActiveEntry(names, bookings[k]);
      AppendAssoc(ActiveHead, ActiveEntries(names, bookings[..k]), entry);
      response := response + entry;
    }
    assert bookings[..|bookings|] == bookings;
    reply := response + ActiveFoot;
  }

  // --------------------------------------------------------------- view

  /** Any booking of the customer at the business. */
  predicate OwnedBy(b: BookingRec, customerId: int, businessId: int) {
    b.customerId == customerId && b.businessId == businessId
  }

  function Reverse<T>(s: seq<T>): (r: seq<T>)
    ensures |r| == |s| && forall i | 0 <= i < |s| :: r[i] == s[|s| - 1 - i]
  {
    seq(|s|, i requires 0 <= i < |s| => s[|s| - 1 - i])
  }

  /** All bookings of the customer at the business, in table order. */
  function Owned(rows: seq<BookingRec>, customerId: int, businessId: int): seq<BookingRec> {
    Select(rows, b => OwnedBy(b, customerId, businessId))
  }

  /** The customer's bookings from the latest date and time down. */
  function Latest(rows: seq<BookingRec>, customerId: int, businessId: int): seq<BookingRec> {
    Reverse(SortBy(Owned(rows, customerId, businessId), DateTimeKey))
  }

  /** `LIMIT 10` */
  function Take10(d: seq<BookingRec>): seq<BookingRec> {
    if |d| <= 10 then d else d[..10]
  }

  /** The view query (`ORDER BY booking_date DESC, booking_time DESC LIMIT 10`):
      ten of the customer's bookings, or all when there are fewer, from the
      latest date and time down, and none left out is later than the last
      one listed. */
  function RecentBookings(rows: seq<BookingRec>, customerId: int, businessId: int): (r: seq<BookingRec>)
    ensures |r| == if |Owned(rows, customerId, businessId)| <= 10 then |Owned(rows, customerId, businessId)| else 10
    ensures multiset(r) <= multiset(Owned(rows, customerId, businessId))
    ensures forall i | 0 <= i < |r| :: r[i] in rows && OwnedBy(r[i], customerId, businessId)
    ensures forall i, j | 0 <= i < j < |r| :: KeyLe(DateTimeKey(r[j]), DateTimeKey(r[i]))
    ensures r != [] ==>
              forall b | b in multiset(Owned(rows, customerId, businessId)) - multiset(r) ::
                KeyLe(DateTimeKey(b), DateTimeKey(r[|r| - 1]))
  {
    LatestTen(rows, customerId, businessId);
    Take10(Latest(rows, customerId, businessId))
  }

  lemma LatestTen(rows: seq<BookingRec>, customerId: int, businessId: int)
    ensures var owned := Owned(rows, customerId, businessId);
            var r := Take10(Latest(rows, customerId, businessId));
            |r| == (if |owned| <= 10 then |owned| else 10)
            && multiset(r) <= multiset(owned)
            && (forall i | 0 <= i < |r| :: r[i] in rows && OwnedBy(r[i], customerId, businessId))
            && (forall i, j | 0 <= i < j < |r| :: KeyLe(DateTimeKey(r[j]), DateTimeKey(r[i])))
            && (r != [] ==>
                  forall b | b in multiset(owned) - multiset(r) :: KeyLe(DateTimeKey(b), DateTimeKey(r[|r| - 1])))
  {
    var selected := Owned(rows, customerId, businessId);
    var owned := SortBy(selected, DateTimeKey);
    assert forall b | b in owned :: b in rows && OwnedBy(b, customerId, businessId) by {
      forall b | b in owned ensures b in rows && OwnedBy(b, customerId, businessId) {
        assert b in multiset(owned);
        assert b in multiset(selected);
      }
    }
    LatestFirst(owned, rows, customerId, businessId);
    var desc := Reverse(owned);
    ReverseMultiset(owned);
    assert multiset(desc) == multiset(selected);
    if |desc| > 10 {
      TopTen(desc);
    }
  }

  lemma ReverseMultiset<T>(s: seq<T>)
    ensures multiset(Reverse(s)) == multiset(s)
  {
    if s != [] {
      var t := s[1..];
      assert s == [s[0]] + t;
      ReverseMultiset(t);
      assert Reverse(s) == Reverse(t) + [s[0]];
    }
  }

  /** Cutting a descending list after ten leaves out nothing later than the
      tenth. */
  lemma TopTen(desc: seq<BookingRec>)
    requires |desc| > 10
    requires forall i, j | 0 <= i < j < |desc| :: KeyLe(DateTimeKey(desc[j]), DateTimeKey(desc[i]))
    ensures multiset(desc[..10]) <= multiset(desc)
    ensures forall b | b in multiset(desc) - multiset(desc[..10]) :: KeyLe(DateTimeKey(b), DateTimeKey(desc[9]))
  {
    assert desc == desc[..10] + desc[10..];
    assert multiset(desc) - multiset(desc[..10]) == multiset(desc[10..]);
    forall b | b in multiset(desc) - multiset(desc[..10]) ensures KeyLe(DateTimeKey(b), DateTimeKey(desc[9])) {
      assert b in desc[10..];
      var j :| 0 <= j < |desc[10..]| && desc[10..][j] == b;
      assert desc[10 + j] == b;
    }
  }

  /** The sorted rows read backwards are owned rows in descending order. */
  lemma LatestFirst(owned: seq<BookingRec>, rows: seq<BookingRec>, customerId: int, businessId: int)
    requires SortedBy(owned, DateTimeKey)
    requires forall b | b in owned :: b in rows && OwnedBy(b, customerId, businessId)
    ensures var desc := Reverse(owned);
            (forall i | 0 <= i < |desc| :: desc[i] in rows && OwnedBy(desc[i], customerId, businessId))
            && forall i, j | 0 <= i < j < |desc| :: KeyLe(DateTimeKey(desc[j]), DateTimeKey(desc[i]))
  {
    var desc := Reverse(owned);
    forall i | 0 <= i < |desc| ensures desc[i] in rows && OwnedBy(desc[i], customerId, businessId) {
      assert desc[i] == owned[|owned| - 1 - i];
    }
    forall i, j | 0 <= i < j < |desc| ensures KeyLe(DateTimeKey(desc[j]), DateTimeKey(desc[i])) {
      assert desc[j] == owned[|owned| - 1 - j] && desc[i] == owned[|owned| - 1 - i];
    }
  }

  const NoBookingsText := "You have no bookings. Reply \"book\" to make a new booking."
  const BookingsHead := "📅 Your Bookings:\n\n"

  function BookingEntry(names: map<int, string>, b: BookingRec): string {
    Hash + NatToString(b.id) + Dash + ServiceLabel(names, b.serviceId) + DateLine + b.date + Space + b.time
    + StatusLine + b.status + Blank
  }

  function BookingEntries(names: map<int, string>, bs: seq<BookingRec>): string {
    if bs == [] then "" else BookingEntries(names, bs[..|bs| - 1]) + BookingEntry(names, bs[|bs| - 1])
  }

  function ViewReply(rows: seq<BookingRec>, customerId: int, businessId: int, names: map<int, string>): string {
    var bs := RecentBookings(rows, customerId, businessId);
    if bs == [] then NoBookingsText else BookingsHead + BookingEntries(names, bs)
  }

  lemma BookingEntriesStep(names: map<int, string>, bs: seq<BookingRec>, k: nat)
    requires k < |bs|
    ensures BookingEntries(names, bs[..k + 1]) == BookingEntries(names, bs[..k]) + BookingEntry(names, bs[k])
  {
    assert bs[..k + 1][..k] == bs[..k];
  }

  /** The bookings list body: the entries appended one by one after the head. */
  method RenderBookings(names: map<int, string>, bookings: seq<BookingRec>) returns (response: string)
    ensures response == BookingsHead + BookingEntries(names, bookings)
  {
    response := BookingsHead;
    for k := 0 to |bookings|
      invariant response == BookingsHead + BookingEntries(names, bookings[..k])
    {
      BookingEntriesStep(names, bookings, k);
      var entry := BookingEntry(names, bookings[k]);
      AppendAssoc(BookingsHead, BookingEntries(names, bookings[..k]), entry);
      response := response + entry;
    }
    assert bookings[..|bookings|] == bookings;
  }

  /** `handleViewBookings`: reads the table, changes nothing. */
  method HandleViewBookings(table: BookingTable, businessId: int, customer: Customer, names: map<int, string>)
    returns (reply: string)
    ensures reply == ViewReply(table.rows, customer.id, businessId, names)
  {
    var bookings := RecentBookings(table.rows, customer.id, businessId);
    if |bookings| == 0 {
      return NoBookingsText;
    }
    reply := RenderBookings(names, bookings);
  }
}
