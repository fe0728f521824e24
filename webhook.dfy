/** The webhook routes of the root bot: the verification handshake, the
    handling of an incoming message (parse, save, pick a reply, send it), and
    the broadcast to a business's customers. */
module Webhook {
  import opened Wrappers
  import opened Text
  import opened Lang
  import opened Outbound
  import opened Generic
  import opened Booking
  import opened Products
  import opened ServiceBooking
  import opened CloudPayload
  import Faq
  import Spaza
  import MessageParser
  import MessageController

  // ---------------------------------------------------------- verification

  /** An HTTP answer: the status and the body sent with it (`None`: the
      status's own text, or an empty body). */
  datatype Http = Http(status: nat, body: Option<string>)

  const Subscribe := "subscribe"

  /** `GET /webhook/whatsapp`: the challenge is echoed with 200 exactly when
      the mode is 'subscribe' and the token is (strictly) the configured
      verify token; everything else is refused with 403. A missing query
      value is `None`. */
  function VerifyWebhook(mode: Option<string>, token: Option<string>, challenge: Option<string>,
                         verifyToken: Option<string>): (r: Http)
    ensures r.status == 200 <==> mode == Some(Subscribe) && token == verifyToken
    ensures r.status == 200 ==> r.body == challenge
    ensures r.status != 200 ==> r == Http(403, None)
  {
    if mode == Some(Subscribe) && token == verifyToken then Http(200, challenge) else Http(403, None)
  }

  /** With a verify token configured, a request that carries a different
      token, or none, is refused whatever its mode. */
  lemma WrongTokenRefused(mode: Option<string>, token: Option<string>, challenge: Option<string>, configured: string)
    requires token != Some(configured)
    ensures VerifyWebhook(mode, token, challenge, Some(configured)) == Http(403, None)
  {
  }

  // ---------------------------------------------------------- the POST body

  const BusinessAccount := "whatsapp_business_account"

  /** What `POST /webhook/whatsapp` does with a body: nothing but 200, a
      status update (200), one message to process, or a crash (500) when
      `value.messages` is an empty array and `message.from` is read off
      `undefined`. */
  datatype Route = Skip | StatusUpdate | Process(message: WaMessage) | Crash

  /** `body.entry?.[0]?.changes?.[0]?.value`; an `entry` that is an object
      rather than an array has no element 0. */
  function FirstValue(b: Body): Option<Value> {
    if b.entry.Entries? && |b.entry.items| > 0 && b.entry.items[0].changes.Some?
       && |b.entry.items[0].changes.value| > 0 then
      b.entry.items[0].changes.value[0].value
    else None
  }

  function RouteOf(b: Body): (r: Route)
    ensures b.objectType != BusinessAccount ==> r == Skip
    ensures r.Process? ==> b.objectType == BusinessAccount && Delivers(b, r.message)
    ensures forall m | b.objectType == BusinessAccount && Delivers(b, m) :: r == Process(m)
    ensures r.Crash? <==> b.objectType == BusinessAccount && FirstValue(b).Some?
                          && FirstValue(b).value.messages == Some([])
  {
    if b.objectType != BusinessAccount then Skip
    else match FirstValue(b)
      case None => Skip
      case Some(v) =>
        if v.messages.Some? then
          if |v.messages.value| > 0 then Process(v.messages.value[0]) else Crash
        else if v.statuses then StatusUpdate
        else Skip
  }

  /** Both bot generations read the same message out of a body: whenever this
      route processes a message, the newer generation's controller extracts
      that message too. */
  lemma ControllerAgrees(b: Body)
    requires RouteOf(b).Process?
    ensures MessageController.ExtractMessage(Some(b)) == Ok(Some(MessageController.Extracted(RouteOf(b).message)))
  {
  }

  function StatusOf(r: Route): nat {
    if r.Crash? then 500 else 200
  }

  // -------------------------------------------------------------- the reply

  /** A module's reply as the text the route sends; the catalogue and the
      order list, whose rendering is not modelled, are given as `listText`.
      `None` is `null`. */
  function ModuleText(reply: Spaza.Reply, listText: string): Option<string> {
    match reply
    case Said(text) => Some(text)
    case CatalogOf(_, _) => Some(listText)
    case OrdersOf(_, _) => Some(listText)
    case _ => None
  }

  /** The reply precedence: the module's answer when it handled the message
      with a non-empty text, else a non-empty AI answer, else the help text. */
  function ChooseReply(handled: bool, answer: Option<string>, ai: Option<string>, help: string): (r: string)
    ensures handled && answer.Some? && answer.value != "" ==> r == answer.value
    ensures !(handled && answer.Some? && answer.value != "") && ai.Some? && ai.value != "" ==> r == ai.value
    ensures !(handled && answer.Some? && answer.value != "") && !(ai.Some? && ai.value != "") ==> r == help
  {
    if handled && answer.Some? && answer.value != "" then answer.value
    else if ai.Some? && ai.value != "" then ai.value
    else help
  }

  /** The reply to a parsed message, with the help text in the customer's,
      else the business's, else the English language. */
  function ReplyFor(r: MessageParser.ParseResult, rules: seq<Faq.FaqRule>, messageText: string,
                    listText: string): (reply: string)
    requires r.Parsed?
    ensures reply != ""
  {
    ChooseReply(r.handled, ModuleText(r.response, listText),
                Faq.AIResponse(r.business, Some(r.customer), rules, messageText),
                Faq.HelpMessage(r.business.businessType, Effective(r.customer.language, r.business.language)))
  }

  /** An unhandled message that no rule or heuristic answers gets the help
      text of the business's type. */
  lemma UnansweredGetsHelp(r: MessageParser.ParseResult, rules: seq<Faq.FaqRule>, messageText: string,
                           listText: string)
    requires r.Parsed? && !r.handled && !r.business.aiEnabled
    ensures ReplyFor(r, rules, messageText, listText)
            == Faq.HelpMessage(r.business.businessType, Effective(r.customer.language, r.business.language))
  {
  }

  /** A row of the `messages` table. */
  datatype StoredMessage = StoredMessage(businessId: int, customerId: int, text: string, direction: string)

  const Incoming := "incoming"

  class MessageLog {
    var rows: seq<StoredMessage>

    constructor ()
      ensures rows == []
    {
      rows := [];
    }

    /** `saveMessage(businessId, customerId, messageText, direction)` */
    method SaveMessage(businessId: int, customerId: int, text: string, direction: string)
      modifies this
      ensures rows == old(rows) + [StoredMessage(businessId, customerId, text, direction)]
    {
      rows := rows + [StoredMessage(businessId, customerId, text, direction)];
    }
  }

  /** What follows `parseMessage`: a failure is sent back to the sender and
      nothing is saved; otherwise the incoming text is saved and the chosen
      reply is sent with the business's id. */
  method AnswerParsed(outbox: Outbox, messages: MessageLog, rules: seq<Faq.FaqRule>, from: string,
                      messageText: string, r: MessageParser.ParseResult, listText: string)
    modifies outbox`log, messages
    ensures r.Failure? ==>
              messages.rows == old(messages.rows)
              && outbox.log == old(outbox.log) + PostGeneric(outbox.env, from, r.message, None).entries
    ensures r.Parsed? ==>
              messages.rows == old(messages.rows) + [StoredMessage(r.business.id, r.customer.id, messageText, Incoming)]
              && outbox.log == old(outbox.log)
                               + PostGeneric(outbox.env, from, ReplyFor(r, rules, messageText, listText),
                                             Some(r.business.id)).entries
  {
    if r.Failure? {
      var _ := outbox.SendWhatsAppMessage(from, r.message, None);
      return;
    }
    messages.SaveMessage(r.business.id, r.customer.id, messageText, Incoming);
    var reply: string;
    if r.handled && ModuleText(r.response, listText).Some? && ModuleText(r.response, listText).value != "" {
      reply := ModuleText(r.response, listText).value;
    } else {
      var ai := Faq.GetAIResponse(r.business, Some(r.customer), rules, messageText);
      if ai.Some? && ai.value != "" {
        reply := ai.value;
      } else {
        reply := Faq.HelpMessage(r.business.businessType, Effective(r.customer.language, r.business.language));
      }
    }
    if reply != "" {
      var _ := outbox.SendWhatsAppMessage(from, reply, Some(r.business.id));
    }
  }

  /** `POST /webhook/whatsapp`. The tables and the clock's dates are what
      `parseMessage` works on; `cs` are the order lines of the text and
      `listText` the rendered catalogue or order list. Only a processed
      message changes anything. */
  method ReceiveMessage(businesses: seq<Business>, customers: CustomerTable, bookings: BookingTable, store: Store,
                        outbox: Outbox, messages: MessageLog, rules: seq<Faq.FaqRule>,
                        services: map<int, seq<Service>>, names: map<int, string>, body: Body,
                        today: string, tomorrow: string, cs: seq<Spaza.Candidate>, listText: string)
    returns (status: nat)
    requires customers.Valid() && bookings.Valid() && store.Valid()
    modifies customers, bookings, store, outbox`log, messages
    ensures customers.Valid() && bookings.Valid() && store.Valid()
    ensures status == StatusOf(RouteOf(body))
    ensures !RouteOf(body).Process? ==>
              customers.rows == old(customers.rows) && bookings.rows == old(bookings.rows)
              && store.orders == old(store.orders) && store.products == old(store.products)
              && outbox.log == old(outbox.log) && messages.rows == old(messages.rows)
    ensures RouteOf(body).Process? ==> |old(messages.rows)| <= |messages.rows| <= |old(messages.rows)| + 1
  {
    var route := RouteOf(body);
    if !route.Process? {
      return StatusOf(route);
    }
    var m := route.message;
    var r := MessageParser.ParseMessage(businesses, customers, bookings, store, outbox, services, names,
                                        m.from, m.textBody, today, tomorrow, cs);
    AnswerParsed(outbox, messages, rules, m.from, m.textBody, r, listText);
    status := 200;
  }

  // ------------------------------------------------------------- broadcast

  /** One element of the broadcast's `results`. */
  datatype SendResult = SendResult(to: string, success: bool)

  datatype BroadcastReply =
    | BadRequest(error: string)
    | Broadcast(broadcastId: nat, total: nat, sent: nat, results: seq<SendResult>)

  /** A row of the `broadcasts` table. */
  datatype BroadcastRec = BroadcastRec(id: nat, businessId: int, message: string, targetAudience: string,
                                       status: string, sentCount: nat)

  const MissingFields := "Missing required fields: businessId, message"

  /** The number of successful sends among `results`. */
  function Tally(results: seq<SendResult>): (n: nat)
    ensures n <= |results|
  {
    if results == [] then 0
    else Tally(results[..|results| - 1]) + (if results[|results| - 1].success then 1 else 0)
  }

  /** Every send succeeded exactly when the tally is the number of sends, and
      none did exactly when it is 0. */
  lemma {:induction false} TallyExtremes(results: seq<SendResult>)
    ensures Tally(results) == |results| <==> forall i | 0 <= i < |results| :: results[i].success
    ensures Tally(results) == 0 <==> forall i | 0 <= i < |results| :: !results[i].success
  {
    if results != [] {
      var init := results[..|results| - 1];
      TallyExtremes(init);
      assert forall i | 0 <= i < |init| :: init[i] == results[i];
    }
  }

  /** The entries the sends to `phones` append, in order; `accepted[i]` is
      the Cloud API's answer to the `i`-th post. */
  function BroadcastLog(env: Env, phones: seq<string>, accepted: seq<bool>, message: string,
                        businessId: int): seq<Entry>
    requires |accepted| == |phones|
  {
    if phones == [] then []
    else BroadcastLog(env, phones[..|phones| - 1], accepted[..|phones| - 1], message, businessId)
         + [Entry(Text(phones[|phones| - 1], message, Some(businessId)),
                  env.credentials && accepted[|phones| - 1])]
  }

  /** One entry per phone, in order, each with its own send's outcome. */
  lemma {:induction false} BroadcastLogShape(env: Env, phones: seq<string>, accepted: seq<bool>, message: string,
                                            businessId: int)
    requires |accepted| == |phones|
    ensures |BroadcastLog(env, phones, accepted, message, businessId)| == |phones|
    ensures forall i | 0 <= i < |phones| ::
              BroadcastLog(env, phones, accepted, message, businessId)[i]
              == Entry(Text(phones[i], message, Some(businessId)), env.credentials && accepted[i])
  {
    if phones != [] {
      var n := |phones| - 1;
      BroadcastLogShape(env, phones[..n], accepted[..n], message, businessId);
      assert forall i | 0 <= i < n :: phones[..n][i] == phones[i] && accepted[..n][i] == accepted[i];
    }
  }

  /** The log of the first `i + 1` sends is that of the first `i` and one more. */
  lemma BroadcastLogStep(env: Env, phones: seq<string>, accepted: seq<bool>, message: string,
                         businessId: int, i: nat)
    requires |accepted| == |phones| && i < |phones|
    ensures BroadcastLog(env, phones[..i + 1], accepted[..i + 1], message, businessId)
            == BroadcastLog(env, phones[..i], accepted[..i], message, businessId)
               + [Entry(Text(phones[i], message, Some(businessId)), env.credentials && accepted[i])]
  {
    assert phones[..i + 1][..i] == phones[..i];
    assert accepted[..i + 1][..i] == accepted[..i];
  }

  /** The send loop: one send per phone, in order, each with its own
      outcome, and the successes counted. */
  method SendAll(outbox: Outbox, phones: seq<string>, accepted: seq<bool>, message: string, businessId: int)
    returns (results: seq<SendResult>, sentCount: nat)
    requires |accepted| == |phones|
    modifies outbox`log
    ensures |results| == |phones| && sentCount == Tally(results)
    ensures forall j | 0 <= j < |phones| ::
              results[j] == SendResult(phones[j], outbox.env.credentials && accepted[j])
    ensures outbox.log == old(outbox.log) + BroadcastLog(outbox.env, phones, accepted, message, businessId)
  {
    results := [];
    sentCount := 0;
    for i := 0 to |phones|
      invariant |results| == i && sentCount == Tally(results)
      invariant forall j | 0 <= j < i :: results[j] == SendResult(phones[j], outbox.env.credentials && accepted[j])
      invariant outbox.log == old(outbox.log) + BroadcastLog(outbox.env, phones[..i], accepted[..i], message, businessId)
    {
      BroadcastLogStep(outbox.env, phones, accepted, message, businessId, i);
      var success := outbox.SendWhatsAppMessageAnswered(phones[i], message, Some(businessId), accepted[i]);
      assert outbox.log
          == old(outbox.log) + BroadcastLog(outbox.env, phones[..i + 1], accepted[..i + 1], message, businessId) by {
        AppendAssoc(old(outbox.log), BroadcastLog(outbox.env, phones[..i], accepted[..i], message, businessId),
                    [Entry(Text(phones[i], message, Some(businessId)), success)]);
      }
      if success {
        sentCount := sentCount + 1;
      }
      TallyStep(results, SendResult(phones[i], success));
      results := results + [SendResult(phones[i], success)];
    }
    assert phones[..|phones|] == phones;
    assert accepted[..|accepted|] == accepted;
  }

  lemma TallyStep(results: seq<SendResult>, r: SendResult)
    ensures Tally(results + [r]) == Tally(results) + if r.success then 1 else 0
  {
    assert (results + [r])[..|results|] == results;
  }

  /** `POST /api/messages/broadcast`. `businessId` 0 or `None` and an empty
      message are missing fields; `phones` is the query's distinct phone
      numbers of the business's customers, `accepted` the Cloud API's answer
      to each post, and `nextId` the id the `broadcasts` insert is given. */
  method SendBroadcast(outbox: Outbox, businessId: Option<int>, message: string, targetAudience: string,
                       phones: seq<string>, accepted: seq<bool>, nextId: nat)
    returns (reply: BroadcastReply, rec: Option<BroadcastRec>)
    requires |accepted| == |phones|
    modifies outbox`log
    ensures (businessId.None? || businessId.value == 0 || message == "") <==> reply == BadRequest(MissingFields)
    ensures reply.BadRequest? ==> rec.None? && outbox.log == old(outbox.log)
    ensures reply.Broadcast? ==>
              reply.broadcastId == nextId && reply.total == |phones| && |reply.results| == |phones|
              && reply.sent == Tally(reply.results)
              && (forall i | 0 <= i < |phones| ::
                    reply.results[i] == SendResult(phones[i], outbox.env.credentials && accepted[i]))
              && outbox.log == old(outbox.log) + BroadcastLog(outbox.env, phones, accepted, message, businessId.value)
              && rec == Some(BroadcastRec(nextId, businessId.value, message, targetAudience, "sent", reply.sent))
  {
    if businessId.None? || businessId.value == 0 || message == "" {
      return BadRequest(MissingFields), None;
    }
    var results, sentCount := SendAll(outbox, phones, accepted, message, businessId.value);
    reply := Broadcast(nextId, |phones|, sentCount, results);
    rec := Some(BroadcastRec(nextId, businessId.value, message, targetAudience, "sent", sentCount));
  }

  /** The number of `true`s. */
  function CountTrue(bs: seq<bool>): (n: nat)
    ensures n <= |bs|
  {
    if bs == [] then 0 else CountTrue(bs[..|bs| - 1]) + (if bs[|bs| - 1] then 1 else 0)
  }

  /** The broadcast's `sent` count is the number of posts the API accepted,
      and 0 when credentials are missing. */
  lemma {:induction false} SentCountsAccepted(env: Env, phones: seq<string>, accepted: seq<bool>,
                                               results: seq<SendResult>)
    requires |results| == |phones| == |accepted|
    requires forall i | 0 <= i < |phones| :: results[i] == SendResult(phones[i], env.credentials && accepted[i])
    ensures Tally(results) == if env.credentials then CountTrue(accepted) else 0
  {
    if results != [] {
      var n := |results| - 1;
      assert forall i | 0 <= i < n :: results[..n][i] == results[i] && phones[..n][i] == phones[i]
                                     && accepted[..n][i] == accepted[i];
      SentCountsAccepted(env, phones[..n], accepted[..n], results[..n]);
    }
  }
}
