/** The entry point of the keyword bot: find the business a sender belongs
    to, get or create the customer, and hand the message to the module of
    the business's type. Also the keyword guess of a message's language. */
module MessageParser {
  import opened Wrappers
  import opened Text
  import opened Lang
  import opened Booking
  import opened Products
  import opened Outbound
  import opened Generic
  import opened ServiceBooking
  import BarberBot
  import CarwashBot
  import Spaza

  const NoBusinessText := "Sorry, we couldn't find a business associated with this number. Please contact the business directly."
  const UnsupportedText := "Business type not supported."
  const ErrorText := "Sorry, there was an error processing your message. Please try again."

  /** The keys of `businessModules`. */
  predicate Supported(businessType: string) {
    businessType == "barber" || businessType == "carwash" || businessType == "spaza"
  }

  /** What `parseMessage` resolves with. A module's reply is `Spaza.Reply`,
      whose `NoReply` is `null`. */
  datatype ParseResult = Failure(message: string)
                       | Parsed(business: Business, customer: Customer, response: Spaza.Reply, handled: bool)

  /** A keyword module's resolved value, or its throw. */
  function FromResult(r: Result<Option<string>>): (reply: Spaza.Reply)
    ensures r.Err? <==> reply.Threw?
    ensures reply.NoReply? <==> r == Ok(None)
  {
    match r
    case Ok(v) => if v.Some? then Spaza.Said(v.value) else Spaza.NoReply
    case Err(e) => Spaza.Threw(e)
  }

  /** The module call: barber and car wash work on the bookings, the spaza
      module on the products and orders; the other tables stay as they are. */
  method Dispatch(bookings: BookingTable, store: Store, outbox: Outbox, business: Business, customer: Customer,
                  services: seq<Service>, names: map<int, string>, messageText: string,
                  today: string, tomorrow: string, cs: seq<Spaza.Candidate>) returns (reply: Spaza.Reply)
    requires Supported(business.businessType)
    requires bookings.Valid() && store.Valid()
    modifies bookings, store, outbox`log
    ensures bookings.Valid() && store.Valid()
    ensures business.businessType != "spaza" ==>
              store.products == old(store.products) && store.orders == old(store.orders)
              && store.nextOrderId == old(store.nextOrderId)
    ensures business.businessType == "spaza" ==>
              bookings.rows == old(bookings.rows) && bookings.nextId == old(bookings.nextId)
  {
    if business.businessType == "spaza" {
      reply := Spaza.HandleMessage(store, outbox, business, customer, messageText, cs);
    } else {
      reply := BookingModule(bookings, outbox, business, customer, services, names, messageText, today, tomorrow);
    }
  }

  /** The barber or car wash module. */
  method BookingModule(bookings: BookingTable, outbox: Outbox, business: Business, customer: Customer,
                       services: seq<Service>, names: map<int, string>, messageText: string,
                       today: string, tomorrow: string) returns (reply: Spaza.Reply)
    requires bookings.Valid()
    modifies bookings, outbox`log
    ensures bookings.Valid()
  {
    var r;
    if business.businessType == "barber" {
      r := BarberBot.HandleMessage(bookings, outbox, business, customer, services, names, messageText,
                                   today, tomorrow);
    } else {
      r := CarwashBot.HandleMessage(bookings, outbox, business, customer, services, names, messageText,
                                    today, tomorrow);
    }
    reply := FromResult(r);
  }

  /** `parseMessage(from, messageText)`. `businesses` is the businesses
      table, `services` each business's catalogue, `cs` the order pairs of
      the text; a throw of the module is caught. */
  method ParseMessage(businesses: seq<Business>, customers: CustomerTable, bookings: BookingTable, store: Store,
                      outbox: Outbox, services: map<int, seq<Service>>, names: map<int, string>,
                      from: string, messageText: string, today: string, tomorrow: string,
                      cs: seq<Spaza.Candidate>) returns (r: ParseResult)
    requires customers.Valid() && bookings.Valid() && store.Valid()
    modifies customers, bookings, store, outbox`log
    ensures customers.Valid() && bookings.Valid() && store.Valid()
    ensures FindBusinessByPhone(businesses, from).None? ==>
              r == Failure(NoBusinessText) && customers.rows == old(customers.rows)
              && customers.nextId == old(customers.nextId) && bookings.rows == old(bookings.rows)
              && store.orders == old(store.orders) && outbox.log == old(outbox.log)
    ensures FindBusinessByPhone(businesses, from).Some? ==>
              var b := FindBusinessByPhone(businesses, from).value;
              var l := GetOrCreate(old(customers.rows), old(customers.nextId), from, b.id, "");
              customers.rows == l.rows && customers.nextId == l.nextId
              && (!Supported(b.businessType) ==>
                    r == Failure(UnsupportedText) && bookings.rows == old(bookings.rows)
                    && store.orders == old(store.orders) && outbox.log == old(outbox.log))
              && (r.Parsed? ==> r.business == b && r.customer == l.customer && Supported(b.businessType))
              && (r.Failure? && Supported(b.businessType) ==> r.message == ErrorText)
    ensures r.Parsed? ==> (r.handled <==> !r.response.NoReply?) && !r.response.Threw?
  {
    var business := FindBusinessByPhone(businesses, from);
    if business.None? {
      return Failure(NoBusinessText);
    }
    var b := business.value;
    var customer := customers.GetOrCreateCustomer(from, b.id, "");
    if !Supported(b.businessType) {
      return Failure(UnsupportedText);
    }
    var catalogue := if b.id in services then services[b.id] else [];
    var response := Dispatch(bookings, store, outbox, b, customer, catalogue, names, messageText,
                             today, tomorrow, cs);
    if response.Threw? {
      return Failure(ErrorText);
    }
    r := Parsed(b, customer, response, !response.NoReply?);
  }

  // ------------------------------------------------------------- language

  const AfrikaansWords := ["hallo", "dankie", "asseblief", "ja", "nee"]
  const XhosaWords := ["molo", "enkosi", "ndiyabulela", "ewe", "hayi"]
  const ZuluWords := ["sawubona", "ngiyabonga", "yebo", "cha"]
  const SothoWords := ["dumela", "kea leboha", "e", "che"]

  /** `detectLanguage`: the first language, in the order af, xh, zu, st, one
      of whose keywords is in the lower-cased text; English otherwise. */
  function DetectLanguage(messageText: string): (r: string)
    ensures Known(r)
    ensures r == "af" <==> MentionsAny(ToLower(messageText), AfrikaansWords)
    ensures r == "xh" <==> !MentionsAny(ToLower(messageText), AfrikaansWords)
                           && MentionsAny(ToLower(messageText), XhosaWords)
    ensures r == "zu" <==> !MentionsAny(ToLower(messageText), AfrikaansWords)
                           && !MentionsAny(ToLower(messageText), XhosaWords)
                           && MentionsAny(ToLower(messageText), ZuluWords)
    ensures r == "st" <==> !MentionsAny(ToLower(messageText), AfrikaansWords)
                           && !MentionsAny(ToLower(messageText), XhosaWords)
                           && !MentionsAny(ToLower(messageText), ZuluWords)
                           && MentionsAny(ToLower(messageText), SothoWords)
    ensures r == "en" <==> !MentionsAny(ToLower(messageText), AfrikaansWords)
                           && !MentionsAny(ToLower(messageText), XhosaWords)
                           && !MentionsAny(ToLower(messageText), ZuluWords)
                           && !MentionsAny(ToLower(messageText), SothoWords)
  {
    var text := ToLower(messageText);
    if MentionsAny(text, AfrikaansWords) then "af"
    else if MentionsAny(text, XhosaWords) then "xh"
    else if MentionsAny(text, ZuluWords) then "zu"
    else if MentionsAny(text, SothoWords) then "st"
    else "en"
  }

  /** The Sotho list holds the single letter "e": any text with an 'e' and
      no Afrikaans, Xhosa or Zulu keyword is taken as Sotho, so English is
      only ever detected for texts without the letter. */
  lemma LetterEMeansSotho(messageText: string)
    requires Contains(ToLower(messageText), "e")
    requires !MentionsAny(ToLower(messageText), AfrikaansWords)
    requires !MentionsAny(ToLower(messageText), XhosaWords)
    requires !MentionsAny(ToLower(messageText), ZuluWords)
    ensures DetectLanguage(messageText) == "st"
  {
    assert SothoWords[2] == "e";
  }

  /** A text detected as English has no 'e'. */
  lemma EnglishHasNoE(messageText: string)
    requires DetectLanguage(messageText) == "en"
    ensures !Contains(ToLower(messageText), "e")
  {
    assert SothoWords[2] == "e";
  }
}
