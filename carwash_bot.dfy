/** The car wash's keyword handler: which branch a message takes, and what
    each branch replies and changes. */
module CarwashBot {
  import opened Wrappers
  import opened Text
  import opened Lang
  import opened Booking
  import opened Outbound
  import opened Generic
  import opened ServiceBooking

  const ServicesWords := ["service", "menu", "price", "list"]
  const HoursWords := ["hour", "open", "close", "time"]
  const QueueWords := ["queue", "wait", "busy", "line"]
  const BookWords := ["appointment", "schedule", "reserve"]
  const CancelWords := ["cancel"]
  const ViewWords := ["my booking", "my appointment"]

  /** A request starts with "book" or mentions an appointment, a schedule or
      a reservation. */
  predicate IsBookRequest(text: string) {
    StartsWith(text, "book") || MentionsAny(text, BookWords)
  }

  /** The branches of `handleMessage`. */
  datatype Intent = ServicesIntent | HoursIntent | QueueIntent | BookIntent | CancelIntent | ViewIntent | NoIntent

  /** The `if` chain of `handleMessage` on the lower-cased, trimmed text: the
      first branch whose keywords match wins. */
  function Classify(text: string): (r: Intent)
    ensures r == ServicesIntent <==> MentionsAny(text, ServicesWords)
    ensures r == HoursIntent <==> !MentionsAny(text, ServicesWords) && MentionsAny(text, HoursWords)
    ensures r == QueueIntent <==> !MentionsAny(text, ServicesWords) && !MentionsAny(text, HoursWords)
                                  && MentionsAny(text, QueueWords)
    ensures r == BookIntent <==> !MentionsAny(text, ServicesWords) && !MentionsAny(text, HoursWords)
                                 && !MentionsAny(text, QueueWords) && IsBookRequest(text)
    ensures r == CancelIntent <==> !MentionsAny(text, ServicesWords) && !MentionsAny(text, HoursWords)
                                   && !MentionsAny(text, QueueWords) && !IsBookRequest(text)
                                   && MentionsAny(text, CancelWords)
    ensures r == ViewIntent ==> MentionsAny(text, ViewWords)
    ensures r == NoIntent <==> !MentionsAny(text, ServicesWords) && !MentionsAny(text, HoursWords)
                               && !MentionsAny(text, QueueWords) && !IsBookRequest(text)
                               && !MentionsAny(text, CancelWords) && !MentionsAny(text, ViewWords)
  {
    if MentionsAny(text, ServicesWords) then ServicesIntent
    else if MentionsAny(text, HoursWords) then HoursIntent
    else if MentionsAny(text, QueueWords) then QueueIntent
    else if IsBookRequest(text) then BookIntent
    else if MentionsAny(text, CancelWords) then CancelIntent
    else if MentionsAny(text, ViewWords) then ViewIntent
    else NoIntent
  }

  /** A request that names a price or a time is never taken as a booking: the
      services and hours branches come first. */
  lemma EarlierBranchesShadowBooking(text: string)
    requires Contains(text, "price") || Contains(text, "time")
    ensures Classify(text) != BookIntent
  {
    if Contains(text, "price") {
      assert ServicesWords[2] == "price";
    } else {
      assert HoursWords[3] == "time";
    }
  }

  /** "my appointment" already mentions an appointment, so it is taken as a
      booking request and never reaches the booking list; only "my booking"
      does. */
  lemma MyAppointmentIsBooking(text: string)
    requires Contains(text, "my appointment")
    ensures Classify(text) in {ServicesIntent, HoursIntent, QueueIntent, BookIntent}
  {
    AppointmentInMine();
    ContainsTransitive(text, "my appointment", "appointment");
    assert BookWords[0] == "appointment";
  }

  lemma {:induction false} AppointmentInMine()
    ensures Contains("my appointment", "appointment")
  {
    assert "my appointment"[3..3 + |"appointment"|] == "appointment";
    assert OccursAt("my appointment", "appointment", 3);
  }

  // ----------------------------------------------------------------- texts

  function Labels(code: string): ListLabels {
    match Resolve(code)
    case "af" => ListLabels("🚗 Ons Motorwassery Dienste:", "Duur:", "Prys: R")
    case "xh" => ListLabels("🚗 Iinkonzo Zethu Zokuhlamba Iimoto:", "Ixesha:", "Imali: R")
    case "zu" => ListLabels("🚗 Isevisi Zethu Zokugeza Izimoto:", "Isikhathi:", "Inani: R")
    case "st" => ListLabels("🚗 Litšebeletso tsa Rona tsa Ho Hlatsoa Koloi:", "Nako:", "Theko: R")
    case _ => ListLabels("🚗 Our Car Wash Services:", "Duration:", "Price: R")
  }

  const Footer := "\nTo book, reply \"book [service name] [date] [time]\"\nOr come in anytime during operating hours!"

  function Usage(code: string): string {
    match Resolve(code)
    case "af" => "Om te bespreek, verskaf asseblief:\n• Diens naam\n• Datum\n• Tyd"
    case "xh" => "Ukubhukisha, nceda nike:\n• Igama lenkonzo\n• Umhla\n• Ixesha"
    case "zu" => "Ukubhukha, sicela unikeze:\n• Igama lensevisi\n• Usuku\n• Isikhathi"
    case "st" => "Ho buka, ka kopo fana ka:\n• Lebitso la tšebeletso\n• Letsatsi\n• Nako"
    case _ => UsageEn
  }

  const UsageEn := "To book, please provide:\n• Service name\n• Date (YYYY-MM-DD)\n• Time (HH:MM)\n\nExample: \"book premium wash 2024-01-15 14:00\"\n\nOr reply \"services\" to see available services."

  /** A language without texts gets the English ones. */
  lemma UnknownLanguageEnglish(code: string)
    requires !Known(code)
    ensures Labels(code) == Labels("en") && Usage(code) == UsageEn
  {
  }

  // ----------------------------------------------------------------- queue

  /** `getQueueStatus`: the pending and confirmed bookings of the business
      dated `today`, and twenty minutes per car. */
  datatype QueueStatus = QueueStatus(queueLength: nat, estimatedWait: nat)

  predicate InQueue(b: BookingRec, businessId: int, today: string) {
    b.businessId == businessId && b.date == today && (b.status == Pending || b.status == Confirmed)
  }

  function QueueCount(rows: seq<BookingRec>, businessId: int, today: string): nat {
    if rows == [] then 0
    else QueueCount(rows[..|rows| - 1], businessId, today) + (if InQueue(rows[|rows| - 1], businessId, today) then 1 else 0)
  }

  function GetQueueStatus(rows: seq<BookingRec>, businessId: int, today: string): (q: QueueStatus)
    ensures q.estimatedWait == 20 * q.queueLength
    ensures q.queueLength == QueueCount(rows, businessId, today)
  {
    var count := QueueCount(rows, businessId, today);
    QueueStatus(count, count * 20)
  }

  /** Only today's pending and confirmed bookings of the business count; a
      new one of them adds exactly twenty minutes. */
  lemma QueueGrows(rows: seq<BookingRec>, b: BookingRec, businessId: int, today: string)
    ensures GetQueueStatus(rows + [b], businessId, today).estimatedWait ==
            GetQueueStatus(rows, businessId, today).estimatedWait + (if InQueue(b, businessId, today) then 20 else 0)
  {
    assert (rows + [b])[..|rows + [b]| - 1] == rows;
  }

  const QueueEn := ("📊 Current Queue Status:\n\nCars in queue: ", "\nEstimated wait: ", " minutes\n\nBook ahead to skip the queue!")
  const QueueAf := ("📊 Huidige Tuiswag Status:\n\nMotors in tou: ", "\nGeraamde wag: ", " minute\n\nBespreek vooruit om die tou te slaan!")
  const QueueXh := ("📊 Imeko Yejanjane:\n\nIimoto zikwimigca: ", "\nUkulinda okulinganiselweyo: ", " imizuzu")
  const QueueZu := ("📊 Isimo Sejanjane Samanje:\n\nIzimoto ezilindile: ", "\nUkulinda okulinganiselwe: ", " imizuzu")
  const QueueSt := ("📊 Boemo ba Hajoale ba Lethathamo:\n\nLikoloi tse le thathamong: ", "\nHo emela ho lekanyelitsoeng: ", " metsotso")

  function QueueParts(code: string): (string, string, string) {
    match Resolve(code)
    case "af" => QueueAf
    case "xh" => QueueXh
    case "zu" => QueueZu
    case "st" => QueueSt
    case _ => QueueEn
  }

  /** The queue reply: the number of cars, then the wait in minutes. */
  function QueueText(code: string, q: QueueStatus): string {
    var parts := QueueParts(code);
    parts.0 + NatToString(q.queueLength) + parts.1 + NatToString(q.estimatedWait) + parts.2
  }

  /** The reply shows the count and the wait, in decimal. */
  lemma QueueTextShowsStatus(code: string, q: QueueStatus)
    ensures Contains(QueueText(code, q), NatToString(q.queueLength))
    ensures Contains(QueueText(code, q), NatToString(q.estimatedWait))
  {
    var parts := QueueParts(code);
    ContainsTwoFields(parts.0, NatToString(q.queueLength), parts.1, NatToString(q.estimatedWait), parts.2);
  }

  const UndefinedText := "undefined"
  const NaNText := "NaN"

  /** The queue reply as shipped: the query runs through `db.all`, whose
      callback receives an array of rows, so `row.count` is `undefined` and
      `count * 20` is `NaN`, whatever the bookings. */
  function QueueTextAsWritten(code: string, rows: seq<BookingRec>, businessId: int, today: string): string {
    var parts := QueueParts(code);
    parts.0 + UndefinedText + parts.1 + NaNText + parts.2
  }

  /** As shipped, the reply never depends on the bookings and shows
      "undefined" and "NaN" in place of the count and the wait. */
  lemma QueueAsWrittenShowsNoCount(code: string, rows: seq<BookingRec>, businessId: int, today: string)
    ensures QueueTextAsWritten(code, rows, businessId, today) == QueueTextAsWritten(code, [], businessId, today)
    ensures Contains(QueueTextAsWritten(code, rows, businessId, today), UndefinedText)
    ensures Contains(QueueTextAsWritten(code, rows, businessId, today), NaNText)
  {
    var parts := QueueParts(code);
    ContainsTwoFields(parts.0, UndefinedText, parts.1, NaNText, parts.2);
  }

  // ---------------------------------------------------------- the handler

  /** `handleMessage(business, customer, messageText)`: `services` is the
      business's catalogue in price order, `names` the service names for the
      bookings' join, `today` and `tomorrow` the clock's dates (`today` is
      also the queue's `date('now')`). `Err` is a throw. */
  method HandleMessage(table: BookingTable, outbox: Outbox, business: Business, customer: Customer,
                       services: seq<Service>, names: map<int, string>, messageText: string,
                       today: string, tomorrow: string) returns (reply: Result<Option<string>>)
    requires table.Valid()
    modifies table, outbox`log
    ensures table.Valid()
    ensures var intent := Classify(Trim(ToLower(messageText)));
            var lang := Effective(customer.language, business.language);
            (intent != BookIntent && intent != CancelIntent ==>
               table.rows == old(table.rows) && table.nextId == old(table.nextId) && outbox.log == old(outbox.log)
               && reply == Answer(intent, lang, business, customer, services, names, old(table.rows), today))
            && (intent == BookIntent ==>
                  var p := PlanBooking(services, messageText, today, tomorrow, old(table.rows), business.id);
                  reply == Ok(Some(PlanReply(p, Usage(lang))))
                  && BookingEffect(p, old(table.rows), old(table.nextId), old(outbox.log), table.rows, table.nextId,
                                   outbox.log, outbox.env, business.id, customer, reply.value.value))
            && (intent == CancelIntent ==>
                  var p := PlanCancel(old(table.rows), customer.id, business.id, messageText);
                  reply == Ok(Some(CancelReply(p, names)))
                  && table.rows == (if p.CancelOne? then WithStatus(old(table.rows), p.id, Cancelled) else old(table.rows))
                  && table.nextId == old(table.nextId) && outbox.log == old(outbox.log))
  {
    reply := HandleIntent(table, outbox, business, customer, services, names, messageText, today, tomorrow,
                          Classify(Trim(ToLower(messageText))), Effective(customer.language, business.language));
  }

  /** The branch for an already classified message, in the language `lang`. */
  method HandleIntent(table: BookingTable, outbox: Outbox, business: Business, customer: Customer,
                      services: seq<Service>, names: map<int, string>, messageText: string,
                      today: string, tomorrow: string,
                      intent: Intent, lang: string) returns (reply: Result<Option<string>>)
    requires table.Valid()
    modifies table, outbox`log
    ensures table.Valid()
    ensures (intent != BookIntent && intent != CancelIntent ==>
               table.rows == old(table.rows) && table.nextId == old(table.nextId) && outbox.log == old(outbox.log)
               && reply == Answer(intent, lang, business, customer, services, names, old(table.rows), today))
            && (intent == BookIntent ==>
                  var p := PlanBooking(services, messageText, today, tomorrow, old(table.rows), business.id);
                  reply == Ok(Some(PlanReply(p, Usage(lang))))
                  && BookingEffect(p, old(table.rows), old(table.nextId), old(outbox.log), table.rows, table.nextId,
                                   outbox.log, outbox.env, business.id, customer, reply.value.value))
            && (intent == CancelIntent ==>
                  var p := PlanCancel(old(table.rows), customer.id, business.id, messageText);
                  reply == Ok(Some(CancelReply(p, names)))
                  && table.rows == (if p.CancelOne? then WithStatus(old(table.rows), p.id, Cancelled) else old(table.rows))
                  && table.nextId == old(table.nextId) && outbox.log == old(outbox.log))
  {
    if intent == BookIntent {
      var r := HandleBookingRequest(table, outbox, business.id, customer, services, messageText, Usage(lang),
                                    today, tomorrow);
      reply := Ok(Some(r));
    } else if intent == CancelIntent {
      var r := HandleCancelBooking(table, business.id, customer, messageText, names);
      reply := Ok(Some(r));
    } else {
      reply := Respond(table, intent, lang, business, customer, services, names, today);
    }
  }

  /** The replies of the branches that only read: the services list, the
      hours, the queue, the booking list, and `null` when no branch matched. */
  function Answer(intent: Intent, lang: string, business: Business, customer: Customer,
                  services: seq<Service>, names: map<int, string>, rows: seq<BookingRec>,
                  today: string): Result<Option<string>> {
    match intent
    case ServicesIntent => Ok(Some(ServicesText(Labels(lang), services, Footer)))
    case HoursIntent => HoursReply(business)
    case QueueIntent => Ok(Some(QueueText(lang, GetQueueStatus(rows, business.id, today))))
    case ViewIntent => Ok(Some(ViewReply(rows, customer.id, business.id, names)))
    case _ => Ok(None)
  }

  method Respond(table: BookingTable, intent: Intent, lang: string, business: Business, customer: Customer,
                 services: seq<Service>, names: map<int, string>, today: string)
    returns (reply: Result<Option<string>>)
    ensures reply == Answer(intent, lang, business, customer, services, names, table.rows, today)
  {
    if intent == ServicesIntent {
      var r := FormatServicesList(Labels(lang), services, Footer);
      reply := Ok(Some(r));
    } else if intent == HoursIntent {
      var h := GetOperatingHours(business);
      reply := if h.Some? then Ok(Some(h.value)) else Err("TypeError");
    } else if intent == QueueIntent {
      var queueStatus := GetQueueStatus(table.rows, business.id, today);
      reply := Ok(Some(QueueText(lang, queueStatus)));
    } else if intent == ViewIntent {
      var r := HandleViewBookings(table, business.id, customer, names);
      reply := Ok(Some(r));
    } else {
      reply := Ok(None);
    }
  }
}
