/** The barber shop's keyword handler: which branch a message takes, and
    what each branch replies and changes. */
module BarberBot {
  import opened Wrappers
  import opened Text
  import opened Lang
  import opened Booking
  import opened Outbound
  import opened Generic
  import opened ServiceBooking

  const ServicesWords := ["service", "menu", "price", "list"]
  const HoursWords := ["hour", "open", "close", "time"]
  const BookWords := ["appointment", "schedule"]
  const CancelWords := ["cancel", "reschedule"]
  const ViewWords := ["my booking", "my appointment"]

  /** A request starts with "book" or mentions an appointment or schedule. */
  predicate IsBookRequest(text: string) {
    StartsWith(text, "book") || MentionsAny(text, BookWords)
  }

  /** The branches of `handleMessage`. */
  datatype Intent = ServicesIntent | HoursIntent | BookIntent | CancelIntent | ViewIntent | NoIntent

  /** The `if` chain of `handleMessage` on the lower-cased, trimmed text: the
      first branch whose keywords match wins. */
  function Classify(text: string): (r: Intent)
    ensures r == ServicesIntent <==> MentionsAny(text, ServicesWords)
    ensures r == HoursIntent <==> !MentionsAny(text, ServicesWords) && MentionsAny(text, HoursWords)
    ensures r == BookIntent <==> !MentionsAny(text, ServicesWords) && !MentionsAny(text, HoursWords)
                                 && IsBookRequest(text)
    ensures r == CancelIntent <==> !MentionsAny(text, ServicesWords) && !MentionsAny(text, HoursWords)
                                   && !IsBookRequest(text) && MentionsAny(text, CancelWords)
    ensures r == ViewIntent ==> MentionsAny(text, ViewWords)
    ensures r == NoIntent <==> !MentionsAny(text, ServicesWords) && !MentionsAny(text, HoursWords)
                               && !IsBookRequest(text) && !MentionsAny(text, CancelWords)
                               && !MentionsAny(text, ViewWords)
  {
    if MentionsAny(text, ServicesWords) then ServicesIntent
    else if MentionsAny(text, HoursWords) then HoursIntent
    else if IsBookRequest(text) then BookIntent
    else if MentionsAny(text, CancelWords) then CancelIntent
    else if MentionsAny(text, ViewWords) then ViewIntent
    else NoIntent
  }

  /** A request that names a price or a time is never taken as a booking: the
      services and hours branches come first. */
  lemma EarlierBranchesShadowBooking(text: string)
    requires Contains(text, "price") || Contains(text, "time")
    ensures Classify(text) != BookIntent
  {
    if Contains(text, "price") {
      assert ServicesWords[2] == "price";
    } else {
      assert HoursWords[3] == "time";
    }
  }

  /** "my appointment" already mentions an appointment, so it is taken as a
      booking request and never reaches the booking list; only "my booking"
      does. */
  lemma MyAppointmentIsBooking(text: string)
    requires Contains(text, "my appointment")
    ensures Classify(text) in {ServicesIntent, HoursIntent, BookIntent}
  {
    AppointmentInMine();
    ContainsTransitive(text, "my appointment", "appointment");
    assert BookWords[0] == "appointment";
  }

  lemma {:induction false} AppointmentInMine()
    ensures Contains("my appointment", "appointment")
  {
    assert "my appointment"[3..3 + |"appointment"|] == "appointment";
    assert OccursAt("my appointment", "appointment", 3);
  }

  // ----------------------------------------------------------------- texts

  function Labels(code: string): ListLabels {
    match Resolve(code)
    case "af" => ListLabels("✂️ Ons Dienste:", "Duur:", "Prys: R")
    case "xh" => ListLabels("✂️ Iinkonzo Zethu:", "Ixesha:", "Imali: R")
    case "zu" => ListLabels("✂️ Isevisi Zethu:", "Isikhathi:", "Inani: R")
    case "st" => ListLabels("✂️ Litšebeletso tsa Rona:", "Nako:", "Theko: R")
    case _ => ListLabels("✂️ Our Services:", "Duration:", "Price: R")
  }

  const Footer := "\nTo book, reply \"book [service name] [date] [time]\"\nExample: \"book haircut 2024-01-15 10:00\""

  function Usage(code: string): string {
    match Resolve(code)
    case "af" => "Om te bespreek, verskaf asseblief:\n• Diens naam\n• Datum (YYYY-MM-DD)\n• Tyd (HH:MM)\n\nVoorbeeld: \"book haircut 2024-01-15 10:00\""
    case "xh" => "Ukubhukisha, nceda nike:\n• Igama lenkonzo\n• Umhla (YYYY-MM-DD)\n• Ixesha (HH:MM)"
    case "zu" => "Ukubhukha, sicela unikeze:\n• Igama lensevisi\n• Usuku (YYYY-MM-DD)\n• Isikhathi (HH:MM)"
    case "st" => "Ho buka, ka kopo fana ka:\n• Lebitso la tšebeletso\n• Letsatsi (YYYY-MM-DD)\n• Nako (HH:MM)"
    case _ => UsageEn
  }

  const UsageEn := "To book, please provide:\n• Service name\n• Date (YYYY-MM-DD)\n• Time (HH:MM)\n\nExample: \"book haircut 2024-01-15 10:00\"\n\nOr reply \"services\" to see available services."

  /** A language without texts gets the English ones. */
  lemma UnknownLanguageEnglish(code: string)
    requires !Known(code)
    ensures Labels(code) == Labels("en") && Usage(code) == UsageEn
  {
  }

  // ------------------------------------------------------------ the time

  /** `padStart(5, '0')` */
  const TimeWidth: nat := 5

  /** The time as `handleBookingRequest` reads it: the match, padded to five
      characters only when it has no ':'. */
  function TimeAsWritten(messageText: string): (r: string)
    ensures r == BookingTime(messageText)
  {
    var t := BookingTime(messageText);
    if t != "" && ':' !in t then PadStart(t, TimeWidth, '0') else t
  }

  /** A match always has its ':', so the padding never happens: "9:30" stays
      "9:30" and is turned away even when 09:30 is free. */
  lemma UnpaddedRejectedAsWritten(services: seq<Service>, messageText: string, today: string, tomorrow: string,
                                  rows: seq<BookingRec>, businessId: int)
    requires |TimeAsWritten(messageText)| == 4
    ensures !PlanFor(services, messageText, BookingDate(messageText, today, tomorrow), TimeAsWritten(messageText),
                     rows, businessId).Book?
  {
    UnpaddedNeverBooked(services, messageText, today, tomorrow, rows, businessId);
  }

  // ---------------------------------------------------------- the handler

  /** `handleMessage(business, customer, messageText)`: `services` is the
      business's catalogue in price order, `names` the service names for the
      bookings' join, `today` and `tomorrow` the clock's dates. `Err` is a
      throw. */
  method HandleMessage(table: BookingTable, outbox: Outbox, business: Business, customer: Customer,
                       services: seq<Service>, names: map<int, string>, messageText: string,
                       today: string, tomorrow: string) returns (reply: Result<Option<string>>)
    requires table.Valid()
    modifies table, outbox`log
    ensures table.Valid()
    ensures var intent := Classify(Trim(ToLower(messageText)));
            var lang := Effective(customer.language, business.language);
            (intent != BookIntent && intent != CancelIntent ==>
               table.rows == old(table.rows) && table.nextId == old(table.nextId) && outbox.log == old(outbox.log)
               && reply == Answer(intent, lang, business, customer, services, names, old(table.rows)))
            && (intent == BookIntent ==>
                  var p := PlanBooking(services, messageText, today, tomorrow, old(table.rows), business.id);
                  reply == Ok(Some(PlanReply(p, Usage(lang))))
                  && BookingEffect(p, old(table.rows), old(table.nextId), old(outbox.log), table.rows, table.nextId,
                                   outbox.log, outbox.env, business.id, customer, reply.value.value))
            && (intent == CancelIntent ==>
                  var p := PlanCancel(old(table.rows), customer.id, business.id, messageText);
                  reply == Ok(Some(CancelReply(p, names)))
                  && table.rows == (if p.CancelOne? then WithStatus(old(table.rows), p.id, Cancelled) else old(table.rows))
                  && table.nextId == old(table.nextId) && outbox.log == old(outbox.log))
  {
    reply := HandleIntent(table, outbox, business, customer, services, names, messageText, today, tomorrow,
                          Classify(Trim(ToLower(messageText))), Effective(customer.language, business.language));
  }

  /** The branch for an already classified message, in the language `lang`. */
  method HandleIntent(table: BookingTable, outbox: Outbox, business: Business, customer: Customer,
                      services: seq<Service>, names: map<int, string>, messageText: string,
                      today: string, tomorrow: string,
                      intent: Intent, lang: string) returns (reply: Result<Option<string>>)
    requires table.Valid()
    modifies table, outbox`log
    ensures table.Valid()
    ensures (intent != BookIntent && intent != CancelIntent ==>
               table.rows == old(table.rows) && table.nextId == old(table.nextId) && outbox.log == old(outbox.log)
               && reply == Answer(intent, lang, business, customer, services, names, old(table.rows)))
            && (intent == BookIntent ==>
                  var p := PlanBooking(services, messageText, today, tomorrow, old(table.rows), business.id);
                  reply == Ok(Some(PlanReply(p, Usage(lang))))
                  && BookingEffect(p, old(table.rows), old(table.nextId), old(outbox.log), table.rows, table.nextId,
                                   outbox.log, outbox.env, business.id, customer, reply.value.value))
            && (intent == CancelIntent ==>
                  var p := PlanCancel(old(table.rows), customer.id, business.id, messageText);
                  reply == Ok(Some(CancelReply(p, names)))
                  && table.rows == (if p.CancelOne? then WithStatus(old(table.rows), p.id, Cancelled) else old(table.rows))
                  && table.nextId == old(table.nextId) && outbox.log == old(outbox.log))
  {
    if intent == BookIntent {
      var r := HandleBookingRequest(table, outbox, business.id, customer, services, messageText, Usage(lang),
                                    today, tomorrow);
      reply := Ok(Some(r));
    } else if intent == CancelIntent {
      var r := HandleCancelBooking(table, business.id, customer, messageText, names);
      reply := Ok(Some(r));
    } else {
      reply := Respond(table, intent, lang, business, customer, services, names);
    }
  }

  /** The replies of the branches that only read: the services list, the
      hours, the booking list, and `null` when no branch matched. */
  function Answer(intent: Intent, lang: string, business: Business, customer: Customer,
                  services: seq<Service>, names: map<int, string>, rows: seq<BookingRec>): Result<Option<string>> {
    match intent
    case ServicesIntent => Ok(Some(ServicesText(Labels(lang), services, Footer)))
    case HoursIntent => HoursReply(business)
    case ViewIntent => Ok(Some(ViewReply(rows, customer.id, business.id, names)))
    case _ => Ok(None)
  }

  method Respond(table: BookingTable, intent: Intent, lang: string, business: Business, customer: Customer,
                 services: seq<Service>, names: map<int, string>) returns (reply: Result<Option<string>>)
    ensures reply == Answer(intent, lang, business, customer, services, names, table.rows)
  {
    if intent == ServicesIntent {
      var r := FormatServicesList(Labels(lang), services, Footer);
      reply := Ok(Some(r));
    } else if intent == HoursIntent {
      var h := GetOperatingHours(business);
      reply := if h.Some? then Ok(Some(h.value)) else Err("TypeError");
    } else if intent == ViewIntent {
      var r := HandleViewBookings(table, business.id, customer, names);
      reply := Ok(Some(r));
    } else {
      reply := Ok(None);
    }
  }
}
