# csonic-whatsapp-bot in Dafny

This project models the decision logic of a WhatsApp business bot for
barbers, car washes and spaza shops. The repository holds two generations
of the bot.

- **The newer generation** (`project/`) has a webhook controller. The
  controller pulls the sender, the text and a button id out of a Cloud API
  webhook body. A command router then keeps one session record per sender.
  It handles global commands (`menu`, `help`, `barber`, `carwash`) and, in
  between, drives two small interactive flows that collect a booking one
  answer at a time.
- **The older generation** (root) has its own router copy. Its webhook
  route looks up the business and customer and dispatches on the business
  type to keyword handlers:
  - barber: services, hours, booking, cancellation, bookings list;
  - carwash: the same, plus a queue report;
  - spaza: catalog, order, stock and delivery.

  Those handlers work over a bookings table and a products/orders store.
  When no handler answers, it falls back to FAQ rules and then to greeting,
  help and thanks heuristics. It saves the incoming message, replies
  through the WhatsApp API, and offers a broadcast endpoint.

How the model represents the code:

- The in-memory stores are classes with `seq`/`map` fields:
  - the session map and its records;
  - the bookings, customers, products and orders tables;
  - the bot registry.
- Their asynchronous operations are methods whose `ensures` give the new
  state as a function of the old one.
- Database rows are records in those fields.
- Outbound WhatsApp posts are entries appended to a send log (`Outbound.Outbox`).
- An exception that escapes a call is an `Err` result or an `ok == false` flag.
- A JavaScript `||` fallback on a string treats `""` as missing. The model
  writes such a field as a `string`, with `""` standing for missing; this is
  `Text.Or`.
- A missing array or object is `None`.
- modules/barber.js and modules/carwash.js carry the same booking, cancel
  and bookings-list handlers, word for word apart from the reply texts.
  `ServiceBooking` models them once, with the texts as parameters:
  - `handleBookingRequest`: modules/barber.js:118-197 and modules/carwash.js:155-226.
  - `handleCancelBooking`: modules/barber.js:202-241 and modules/carwash.js:231-267.
  - `handleViewBookings`: modules/barber.js:246-275 and modules/carwash.js:272-301.
  - `formatServicesList`: modules/barber.js:29-77 and modules/carwash.js:29-77.

  The barber copy also pads a time without a colon. That branch can never
  run, because the time pattern always contains one (`BarberBot.TimeAsWritten`).
  In the table below, the rows cite the barber copy.

## Model

| member | source | states |
|---|---|---|
| Sessions.CreateResponse | project/modules/barber.js:1-6 | the message and buttons are kept, `done` defaults to false, and an empty step name counts as no next step |
| Sessions.Field | project/modules/barber.js:28-30 | a value read back from a flow's data is the stored value for that key |
| Sessions.Session.constructor | project/core/router.js:23 | a new session record has no flow, no step and empty data |
| BarberFlow.StartFlow | project/modules/barber.js:8-11 | the opening prompt names `collectDate` as the next step, has no buttons and is not done |
| BarberFlow.Step | project/modules/barber.js:13-38 | done exactly at `collectStyle`; no response names a next step or carries buttons; a step is always left behind |
| BarberFlow.HandleStep | project/modules/barber.js:13-38 | changes only the record's step and data, to what `Step` gives, and returns its response |
| BarberFlow.CollectStores | project/modules/barber.js:14-24 | `collectDate` stores the input verbatim as `date` and moves to `collectTime`; `collectTime` stores `time` and moves to `collectStyle` |
| BarberFlow.SummaryMentions | project/modules/barber.js:26-33 | the closing summary contains the date, the time and the style |
| BarberFlow.ThreeStepsToDone | project/modules/barber.js:13-33 | from `collectDate`, exactly the third answer gives the first done response, with all three answers stored and named in the summary |
| BarberFlow.UnknownStepResets | project/modules/barber.js:35-37 | any other step resets to `collectDate` with empty data and a plain, not-done re-prompt |
| CarwashFlow.StartFlow | project/modules/carwash.js:8-18 | the opening offers exactly the three package buttons, names `selectPackage` and is not done |
| CarwashFlow.PackageName | project/modules/carwash.js:21-31 | a package id, in any letter case, selects its title; any other answer is stored verbatim |
| CarwashFlow.Step | project/modules/carwash.js:20-53 | done exactly at `collectTime`; no response names a next step; only the restart carries buttons |
| CarwashFlow.HandleStep | project/modules/carwash.js:20-53 | changes only the record's step and data, to what `Step` gives, and returns its response |
| CarwashFlow.PackageIds | project/modules/carwash.js:21-31 | `carwash_basic`, `CARWASH_Deluxe` and `Carwash_Detail` name their packages; `Full valet` is kept as typed |
| CarwashFlow.SummaryMentions | project/modules/carwash.js:41-48 | the closing summary contains the package, the location and the time |
| CarwashFlow.ThreeStepsToDone | project/modules/carwash.js:20-48 | selectPackage, collectLocation and collectTime follow in order, and the third answer gives the first done response with all three values |
| CarwashFlow.UnknownStepResets | project/modules/carwash.js:50-52 | any other step resets to `selectPackage` with empty data and re-sends the package buttons, not done |
| RouterCommon.CommandOf | project/core/router.js:91-110 | a candidate names a command exactly when it equals that command's keyword |
| RouterCommon.Payload | project/core/router.js:115 | a non-empty button id, trimmed, wins over the trimmed text |
| RouterCommon.SanitizeCommand | project/core/router.js:112 | removes a leading `cmd_menu_`, or else `cmd_`, and nothing else |
| RouterCommon.CommandForms | project/core/router.js:112-117 | a lower-cased input names command c exactly when it is `c`, `cmd_c` or `cmd_menu_c` |
| RouterCommon.ButtonIdExample | project/core/router.js:112-117 | the button id `CMD_MENU_BARBER` starts the barber flow |
| RouterCommon.GetStateSpec | project/core/router.js:21-26 | a sender without a record gets a blank one; existing records are untouched |
| RouterCommon.Classify | project/core/router.js:114-141 | the precedence: empty input first, then a global command, then the active flow, then nothing, each branch in both directions |
| RouterCommon.RunStep | project/core/router.js:77-81 | the active module's step function applied to the record in place |
| ProjectRouter.ParseCommand | project/core/router.js:47 | the result is lower case, no longer than the input, and empty exactly for white-space-only input |
| ProjectRouter.EmptyInputIsUnknown | project/core/router.js:118-122 | empty input sends the unknown reply and then the menu, creates no record, and stops at the first send that throws |
| ProjectRouter.MenuAndHelpReset | project/core/router.js:91-100 | `menu` and `help` delete the sender's record, whatever it held |
| ProjectRouter.StartFlowSetsRecord | project/core/router.js:49-75 | starting a flow sets the record's flow, empties its data, takes the opening response's step when that reply was sent, and touches no other record |
| ProjectRouter.StartCommandSetsRecord | project/core/router.js:101-106 | the `barber` and `carwash` commands start their flow |
| ProjectRouter.ModuleResponseFrame | project/core/router.js:49-66 | handling a response changes only the sender's step, and drops the record only on a done response |
| ProjectRouter.DoneDropsRecord | project/core/router.js:62-65 | a done response sends the reply, deletes the record and then sends the menu |
| ProjectRouter.FlowInputKeepsCase | project/core/router.js:129-133 | flow input goes to the module trimmed with its case kept, and the barber flow stores it as the date |
| ProjectRouter.NoFlowIsUnknown | project/core/router.js:140 | input that is no command and belongs to no flow gets the unknown reply and leaves the records unchanged |
| ProjectRouter.HandleKeepsFlows | project/core/router.js:114-141 | after any message, every record in the map belongs to a flow |
| ProjectRouter.DispatchKeepsFlows | project/core/router.js:119-140 | each branch of the message handler keeps every record in a flow |
| ProjectRouter.MenuThrowsAsShipped | project/core/router.js:43-45 | with the shipped service, which has no interactive send, `menu` throws and posts nothing |
| ProjectRouter.MenuSentWithInteractiveSend | project/core/router.js:43-45 | with an interactive send, `menu` posts exactly the three menu buttons |
| ProjectRouter.Router.constructor | project/core/router.js:6 | the session map starts empty |
| ProjectRouter.Router.GetState | project/core/router.js:21-26 | the returned record is the sender's own: the old one, or a fresh blank one added to the map |
| ProjectRouter.Router.ResetState | project/core/router.js:28-30 | removes exactly the sender's record |
| ProjectRouter.Router.SendHelp | project/core/router.js:32-41 | posts the help text, or throws without credentials |
| ProjectRouter.Router.SendMenu | project/core/router.js:43-45 | posts the menu buttons, or throws |
| ProjectRouter.Router.HandleUnknown | project/core/router.js:83-89 | the unknown reply, then the menu |
| ProjectRouter.Router.Deliver | project/core/router.js:52-56 | a response with buttons goes out as an interactive message, any other as text |
| ProjectRouter.Router.MoveStep | project/core/router.js:58-60 | sets only the sender's step |
| ProjectRouter.Router.HandleModuleResponse | project/core/router.js:49-66 | send, move the step, and on done drop the record and send the menu |
| ProjectRouter.Router.Enter | project/core/router.js:69-72 | sets the record's flow, empties its data and clears its step, and nothing else |
| ProjectRouter.Router.Advance | project/core/router.js:78-79 | the module's step applied to the sender's record and to no other |
| ProjectRouter.Router.StartFlow | project/core/router.js:68-75 | the state and result are those of `StartFlowSpec` |
| ProjectRouter.Router.ContinueFlow | project/core/router.js:77-81 | the state and result are those of `ContinueSpec` |
| ProjectRouter.Router.RouteByCommand | project/core/router.js:91-110 | `menu` and `help` reset and reply; a flow command starts its flow |
| ProjectRouter.Router.HandleMessage | project/core/router.js:114-150 | the whole handler, precedence included, agrees with `HandleMessageSpec`, about which the lemmas above are proved |
| CoreRouter.StoredBusinessId | core/router.js:96 | the session keeps the business id unless it is missing or zero (falsy) |
| CoreRouter.SendMenuSpec | core/router.js:48-64 | sending the menu never throws and leaves the records alone |
| CoreRouter.BusinessName | core/router.js:36 | the business's name, or `CSonic` when it has none |
| CoreRouter.EmptyInputHandled | core/router.js:145-148 | empty input sends the unknown reply with the context's business id, then the menu as `sendMenu` sends it, creates no record, and resolves true |
| CoreRouter.NoMatchUnhandled | core/router.js:155-166 | no command and no active flow: nothing is sent, nothing changes, and the result is false |
| CoreRouter.StartWithoutCapability | core/router.js:87-90 | a module without the interactive entry points creates no record, yet the command still reports handled |
| CoreRouter.MenuAndHelpReset | core/router.js:109-118 | `menu` and `help` delete the sender's record and report handled |
| CoreRouter.MenuFallsBackToText | core/router.js:48-64 | when the interactive menu throws, the text menu is posted instead |
| CoreRouter.StartStoresBusiness | core/router.js:87-101 | starting a flow records the flow, empty data and the business id, and touches no other record |
| CoreRouter.RepliesUseStoredBusiness | core/router.js:72-74 | flow replies go out with the session's business id |
| CoreRouter.DoneDropsRecord | core/router.js:71-84 | a done response first sends the reply with the session's business id, then deletes the record, then sends the menu; exactly two entries are added |
| CoreRouter.Router.constructor | core/router.js:9 | the session map starts empty |
| CoreRouter.Router.GetState | core/router.js:24-29 | the returned record is the sender's own: the old one, or a fresh blank one |
| CoreRouter.Router.ResetState | core/router.js:31-33 | removes exactly the sender's record |
| CoreRouter.Router.SendMenu | core/router.js:48-64 | the interactive menu, or the text menu when that throws |
| CoreRouter.Router.SendHelp | core/router.js:35-46 | the help text with the business name |
| CoreRouter.Router.HandleUnknown | core/router.js:130-137 | the unknown reply, then the menu |
| CoreRouter.Router.Deliver | core/router.js:71-75 | buttons go out as an interactive message and text as text, both with the session's business id |
| CoreRouter.Router.MoveStep | core/router.js:77-79 | sets only the sender's step |
| CoreRouter.Router.HandleModuleResponse | core/router.js:68-85 | send, move the step, and on done drop the record and send the menu |
| CoreRouter.Router.Enter | core/router.js:92-96 | sets flow, step, data and business id of the sender's record only |
| CoreRouter.Router.Advance | core/router.js:104-105 | the module's step applied to the sender's record and to no other |
| CoreRouter.Router.StartFlow | core/router.js:87-101 | `started` is true exactly for a capable module; the state is that of `StartFlowSpec` |
| CoreRouter.Router.ContinueFlow | core/router.js:103-107 | the state and result are those of `ContinueSpec` |
| CoreRouter.Router.RouteByCommand | core/router.js:109-128 | the state and result are those of `RouteSpec` |
| CoreRouter.Router.HandleIncomingPayload | core/router.js:139-167 | the whole handler and its return value agree with `HandlePayloadSpec`, about which the lemmas above are proved |
| Outbound.PostText | project/services/whatsappService.js:6-35 | a text send throws, posting nothing, exactly when credentials are missing |
| Outbound.PostInteractive | services/whatsappService.js:39-85 | an interactive send posts exactly when an interactive send exists and credentials are present |
| Outbound.PostGeneric | modules/generic.js:93-130 | the generic send never throws; it reports success exactly when credentials are present |
| Outbound.Outbox.constructor | modules/generic.js:93 | the send log starts empty |
| Outbound.Outbox.SendMessage | project/services/whatsappService.js:6-35 | appends what `PostText` posts |
| Outbound.Outbox.SendInteractive | services/whatsappService.js:39-85 | appends what `PostInteractive` posts |
| Outbound.Outbox.SendWhatsAppMessage | modules/generic.js:93-130 | appends the text, and `success` is whether credentials are present |
| Outbound.Outbox.SendWhatsAppMessageAnswered | modules/generic.js:93-130 | with the API's answer to this post given, `success` is credentials and an accepted post, and the text is appended with that outcome |
| Lang.Resolve | modules/barber.js:58 | a known language code is kept, and an unknown one becomes English |
| Lang.Effective | modules/barber.js:84 | the customer's language, else the business's, else English |
| Booking.CountZeroIff | modules/booking.js:129-141 | the count of holding bookings is zero exactly when no booking holds the slot |
| Booking.SlotAvailable | modules/booking.js:129-141 | a slot is free exactly when no booking of that business, date and time is pending or confirmed |
| Booking.SlotIsClock | modules/booking.js:152-156 | the i-th slot is a zero-padded HH:MM time, 9:00 plus 30·i minutes |
| Booking.GridShape | modules/booking.js:147-157 | the grid has 16 slots, from 09:00 to 16:30, in ascending 30-minute steps |
| Booking.GridDistinct | modules/booking.js:147-157 | the grid's slots are pairwise distinct HH:MM times |
| Booking.FreeAmongEmbeds | modules/booking.js:159-168 | the available list embeds into the grid at increasing positions |
| Booking.FreeAmongFilters | modules/booking.js:159-168 | the available list is a subsequence of the grid and holds exactly its free slots |
| Booking.AllFreeWhenUnheld | modules/booking.js:146-169 | with no pending or confirmed booking that day, all slots are available |
| Booking.AddBookingEffect | modules/booking.js:12-36 | a new pending or confirmed booking removes exactly its own slot from that day's list; any other booking changes nothing |
| Booking.StatusChangeAvailability | modules/booking.js:99-141 | after a status change, availability is judged on the changed row and the untouched others |
| Booking.StatusChangeFrame | modules/booking.js:99-110 | a status change alters only the status, and only of the rows with that id |
| Booking.CancelFrees | modules/booking.js:115-141 | cancelling the only booking that holds a slot frees that slot |
| Booking.GetBookings | modules/booking.js:41-74 | exactly the business's rows that pass the status, date and date-from filters, each as often as stored, ordered by date and time |
| Booking.SlotOfPass | modules/booking.js:152-156 | each pass of the nested loop pushes the grid slot of its hour and minute |
| Booking.BuildGrid | modules/booking.js:147-157 | the nested loop builds exactly the slot grid |
| Booking.BookingTable.constructor | modules/booking.js:12-36 | the bookings table starts empty, with ids from 1 |
| Booking.BookingTable.CreateBooking | modules/booking.js:12-36 | appends a pending booking with the request's fields and a fresh id, without checking availability, and returns it |
| Booking.BookingTable.UpdateBookingStatus | modules/booking.js:99-110 | sets the status of the row with that id; the change count is 1 exactly when the id exists |
| Booking.BookingTable.CancelBooking | modules/booking.js:115-117 | the status update to `cancelled` |
| Booking.BookingTable.ConfirmBooking | modules/booking.js:122-124 | the status update to `confirmed` |
| Booking.BookingTable.GetAvailableTimeSlots | modules/booking.js:146-169 | the free slots of the grid, in grid order; the business hours argument plays no part |
| Products.Lookup | modules/products.js:42-53 | the product found has the id asked for; `None` only when no product has it |
| Products.GetProducts | modules/products.js:12-37 | exactly the business's products that pass the category and in-stock filters, each as often as stored, ordered by category and then name |
| Products.AddStockEffect | modules/products.js:58-69 | the stock update adds the quantity to every row with that id, and changes nothing else |
| Products.CountWithId | modules/products.js:65 | the change count is positive exactly when a product has that id |
| Products.CheckItem | modules/products.js:77-89 | a missing product is unavailable with 'Product not found'; a short one is unavailable with its stock and the requested quantity; otherwise it is available |
| Products.StockReport | modules/products.js:74-92 | one result per item, in input order |
| Products.FirstMissing | modules/products.js:102-106 | the first line whose product is missing, with every earlier line present |
| Products.DetailsMatchLines | modules/products.js:99-116 | one detail per line in input order, with price × quantity, and the total is the sum of the line totals |
| Products.ApplyOrderStock | modules/products.js:136-138 | each product's stock drops by the total quantity its lines ask for |
| Products.PlaceOrderFailure | modules/products.js:102-123 | a missing product or any short line makes the order fail before anything is stored or any stock changes; a missing product is reported first |
| Products.PlaceOrderSuccess | modules/products.js:125-149 | a successful order is stored as pending with the next id and the line details and total, and the stock drops line by line |
| Products.CountOrderId | modules/products.js:231 | the change count is positive exactly when an order has that id |
| Products.OversellAsWritten | modules/products.js:118-138 | each line is checked on its own, so two lines of one loaf each against a stock of one succeed and leave the stock at -1 |
| Products.LookupUnique | modules/products.js:42-53 | when ids are unique, each product is found by its own id |
| Products.OrderStatusFrame | modules/products.js:224-235 | a status update changes only the status, and only of the order with that id |
| Products.Label | modules/products.js:280 | a product without a category goes under 'Other' |
| Products.GroupsKeys | modules/products.js:278-283 | the groups are exactly the categories the products carry |
| Products.GroupsContents | modules/products.js:278-283 | each group holds its category's products, in their order |
| Products.CategoryOrderLists | modules/products.js:285 | the categories are listed once each, exactly the groups |
| Products.GroupByCategory | modules/products.js:277-283 | the loop builds exactly the groups and their first-seen order |
| Products.Store.constructor | modules/products.js:97-154 | the store starts with the given products and no orders |
| Products.Store.UpdateStock | modules/products.js:58-69 | the products become `AddStock` of the old ones; the change count is positive exactly when the id exists |
| Products.Store.CheckStock | modules/products.js:74-92 | the loop returns the stock report |
| Products.Store.PriceLines | modules/products.js:99-116 | the pricing loop stops at the first missing product; otherwise it gives the details and the total |
| Products.Store.DecrementStock | modules/products.js:136-138 | each line's quantity is taken off its product |
| Products.Store.CreateOrder | modules/products.js:97-154 | the result, products and orders are those of `PlaceOrder`, and the id counter moves on by one only on success |
| Products.Store.UpdateOrderStatus | modules/products.js:224-235 | the orders become `OrderWithStatus`; the change count is positive exactly when the id exists |
| Generic.FindCustomer | modules/generic.js:31-33 | the first customer row with that phone number and business, or none when no row matches |
| Generic.GetOrCreate | modules/generic.js:28-71 | a known customer is returned as stored; an unknown one is appended with the next id, the given name or 'Customer', and language 'en' |
| Generic.FindAfterAppend | modules/generic.js:31-33 | after appending, the new row is found exactly when it matches |
| Generic.GetOrCreateValid | modules/generic.js:28-71 | the customer table keeps unique ids below the counter |
| Generic.SecondCallSameCustomer | modules/generic.js:28-71 | a second call for the same phone and business returns the same customer and changes nothing |
| Generic.CustomerPerBusiness | modules/generic.js:32 | one phone number gets a separate customer per business |
| Generic.CustomerTable.constructor | modules/generic.js:28 | the customer table starts empty |
| Generic.CustomerTable.GetOrCreateCustomer | modules/generic.js:28-71 | the customer and the new table are those of `GetOrCreate` |
| Generic.GetGreeting | modules/generic.js:135-148 | the greeting in the effective language, naming the business |
| Generic.GreetingLanguage | modules/generic.js:136-147 | the customer's language, else the business's, else English; an unknown code greets in English |
| Generic.DayNames | modules/generic.js:197-205 | seven day names in every language |
| Generic.HoursObject | modules/generic.js:157-163 | missing hours give no object (reading a day then throws); unparseable JSON gives an empty object |
| Generic.DayHours | modules/generic.js:208 | a day's hours, or 'Closed' when it has none |
| Generic.GetOperatingHours | modules/generic.js:153-213 | returns `HoursMessage`, which the lemmas below describe |
| Generic.DayLinesConcat | modules/generic.js:207-210 | the loop's text is one line per day, in day order |
| Generic.HoursSevenLines | modules/generic.js:193-212 | the reply is the title and then seven lines, Monday to Sunday, each with that day's hours or 'Closed' |
| Generic.UnparseableAllClosed | modules/generic.js:161-163 | unparseable hours list every day as 'Closed' |
| Generic.HoursLanguage | modules/generic.js:193-205 | an unknown language code renders as English |
| Generic.FindBusinessByPhone | modules/generic.js:218-229 | the first business whose WhatsApp number or phone number matches, or none when no business matches |
| ServiceBooking.MoneyValue | modules/barber.js:66 | a price in cents renders with two decimals, and the digits read back give the cents |
| ServiceBooking.FormatServicesList | modules/barber.js:29-77 | the loop builds the services text: the title, one numbered entry per service, then the footer |
| ServiceBooking.EntriesListEveryService | modules/barber.js:61-71 | every service's entry appears in the list |
| ServiceBooking.ChosenFrom | modules/barber.js:128-133 | the first service, in list order, whose lower-cased name occurs in the lower-cased message |
| ServiceBooking.PickService | modules/barber.js:128-133 | the loop with `break` picks exactly that first service's name |
| ServiceBooking.FindByName | modules/barber.js:168 | a service whose name equals the given one ignoring case, or none when no such service exists |
| ServiceBooking.FindChosen | modules/barber.js:128-171 | the name the loop chose always finds that same service, so 'Service not found' cannot be reached |
| ServiceBooking.FindPrefix | modules/barber.js:168 | `find` stops at the chosen service when no earlier name matched |
| ServiceBooking.BookingDate | modules/barber.js:135-145 | the first YYYY-MM-DD match, else today's date when the text says 'today', else tomorrow's, else none |
| ServiceBooking.BookingTime | modules/barber.js:147-154 | the text of the leftmost `H:MM` or `HH:MM` match, four or five characters long, and "" exactly when there is no match |
| ServiceBooking.PlanFor | modules/barber.js:156-192 | usage exactly when a service, a date or a time is missing; 'not available' exactly when the time is not a free slot; otherwise book the first service, in list order, whose name occurs in the message |
| ServiceBooking.BookedSlotWasFree | modules/barber.js:172-179 | a booking is only ever made on a free grid slot |
| ServiceBooking.UnpaddedNeverBooked | modules/barber.js:147-177 | a one-digit hour such as '9:30' is not in the grid and is never booked |
| ServiceBooking.FirstTen | modules/barber.js:176 | at most the first ten free slots are listed, in order |
| ServiceBooking.ConfirmationMentions | modules/barber.js:182-187 | the confirmation names the service, the date and the time |
| ServiceBooking.HandleBookingRequest | modules/barber.js:118-199 | the reply follows the plan; only a booking plan inserts one pending booking and sends the confirmation to the customer; every other outcome changes nothing |
| ServiceBooking.HoursReply | modules/barber.js:93-95 | the hours reply, or a throw when the business has no hours |
| ServiceBooking.ActiveBookings | modules/barber.js:205-217 | exactly the customer's pending and confirmed bookings at this business, by date and time |
| ServiceBooking.PlanCancel | modules/barber.js:219-240 | 'no active bookings' exactly when there are none; a cancel exactly when the first number in the message is an active booking's id; otherwise the active list |
| ServiceBooking.CancelOnlyOwnBooking | modules/barber.js:224-229 | a cancel changes only the one active booking of that customer with the number given |
| ServiceBooking.ActiveEntriesStep | modules/barber.js:234-237 | the list grows by one entry per booking |
| ServiceBooking.HandleCancelBooking | modules/barber.js:202-241 | the reply follows the plan; the table changes only on a cancel, and then only by that status update |
| ServiceBooking.ListActiveBookings | modules/barber.js:233-240 | the loop builds the active-bookings reply |
| ServiceBooking.Reverse | modules/barber.js:253 | a reversed sequence, element by element |
| ServiceBooking.RecentBookings | modules/barber.js:248-261 | ten of the customer's bookings at this business, or all when there are fewer, latest date and time first, and no booking left out is later than the last one listed |
| ServiceBooking.LatestFirst | modules/barber.js:253 | reversing the ascending list gives the descending one |
| ServiceBooking.BookingEntriesStep | modules/barber.js:268-272 | the list grows by one entry per booking |
| ServiceBooking.HandleViewBookings | modules/barber.js:246-275 | the bookings reply, built by the loop, with nothing changed |
| ServiceBooking.RenderBookings | modules/barber.js:267-272 | the list reply is the head followed by one entry per booking, in the order given |
| BarberBot.Classify | modules/barber.js:82-113 | the branch order: services, then hours, then booking, then cancel, then my bookings, then none, each in both directions |
| BarberBot.EarlierBranchesShadowBooking | modules/barber.js:87-98 | a message with 'price' or 'time' never reaches the booking branch |
| BarberBot.MyAppointmentIsBooking | modules/barber.js:98-109 | 'my appointment' is caught earlier, by the booking branch at the latest, so it never lists the bookings |
| BarberBot.UnknownLanguageEnglish | modules/barber.js:58 | a language without texts gets the English ones |
| BarberBot.TimeAsWritten | modules/barber.js:147-154 | the padding branch never fires: the time is the match exactly as found |
| BarberBot.UnpaddedRejectedAsWritten | modules/barber.js:147-177 | so a one-digit hour such as '9:30' is turned away even when 09:30 is free |
| BarberBot.HandleMessage | modules/barber.js:82-113 | the classified branch runs: booking and cancel change the table as their plans say, and every other branch changes nothing and gives its reply or `null` |
| BarberBot.Respond | modules/barber.js:87-112 | the read-only branches: the services list, the hours, the bookings list, or `null` |
| CarwashBot.Classify | modules/carwash.js:106-150 | the branch order: services, then hours, then queue, then booking, then cancel, then my bookings, then none, each in both directions |
| CarwashBot.EarlierBranchesShadowBooking | modules/carwash.js:111-135 | a message with 'price' or 'time' never reaches the booking branch |
| CarwashBot.MyAppointmentIsBooking | modules/carwash.js:122-146 | 'my appointment' is caught earlier, by the booking branch at the latest |
| CarwashBot.UnknownLanguageEnglish | modules/carwash.js:197 | a language without texts gets the English ones |
| CarwashBot.GetQueueStatus | modules/carwash.js:82-101 | the queue is today's pending and confirmed bookings of the business, at twenty minutes a car |
| CarwashBot.QueueGrows | modules/carwash.js:82-101 | one more queued booking adds exactly twenty minutes; any other adds nothing |
| CarwashBot.QueueTextShowsStatus | modules/carwash.js:124-131 | the queue reply shows the count and the wait in decimal |
| CarwashBot.QueueAsWrittenShowsNoCount | modules/carwash.js:84-95 | as written, the reply ignores the bookings and shows 'undefined' and 'NaN' |
| CarwashBot.HandleMessage | modules/carwash.js:106-150 | the classified branch runs: booking and cancel change the table as their plans say, and every other branch changes nothing and gives its reply or `null` |
| CarwashBot.Respond | modules/carwash.js:111-149 | the read-only branches: services, hours, queue, bookings list, or `null` |
| Spaza.Classify | modules/spaza.js:13-60 | the branch order: catalog, hours, order, my orders, delivery, stock, then none, each in both directions |
| Spaza.MyPurchaseIsOrder | modules/spaza.js:29-34 | 'my purchase' always stops at the order branch, or earlier |
| Spaza.DeliverIsEnough | modules/spaza.js:39 | testing for 'delivery' adds nothing to testing for 'deliver' |
| Spaza.FindProduct | modules/spaza.js:186-189 | the first product whose lower-cased name contains the query, or whose first name word the query contains |
| Spaza.EmptyFirstWordMatchesAll | modules/spaza.js:88-91 | a product name starting with a space has an empty first word and matches every query |
| Spaza.Accept | modules/spaza.js:84-98 | a line is taken exactly when it has a number and a product matches it with enough stock |
| Spaza.Accepted | modules/spaza.js:81-100 | no more accepted lines than candidates, and none exactly when no candidate is accepted |
| Spaza.AcceptedStep | modules/spaza.js:81-100 | one more candidate adds its line exactly when it is accepted, so the lines keep the candidates' order |
| Spaza.AcceptedInStock | modules/spaza.js:93-98 | every accepted line names a product with at least that much stock |
| Spaza.NothingMatchesNothingAccepted | modules/spaza.js:88-98 | when no product matches any candidate, nothing is accepted |
| Spaza.AcceptLines | modules/spaza.js:81-100 | the loop accepts exactly those lines |
| Spaza.DeliveryType | modules/spaza.js:114 | 'delivery' exactly when the text contains 'deliver', otherwise 'pickup' |
| Spaza.SeparatorsEnd | modules/spaza.js:119 | the `[:\s]+` run after 'address' ends at the first other character |
| Spaza.LineEnd | modules/spaza.js:119 | `.+` stops at the first line terminator |
| Spaza.CaptureStart | modules/spaza.js:119 | backtracking into the separators starts the capture on a non-terminator |
| Spaza.CaptureAt | modules/spaza.js:119 | a capture is non-empty and lies within one line |
| Spaza.AddressFrom | modules/spaza.js:119 | the first 'address' occurrence, ignoring case, that the pattern matches gives the capture |
| Spaza.DeliveryAddress | modules/spaza.js:119-122 | the trimmed address stays within one line |
| Spaza.TrimKeeps | modules/spaza.js:121 | trimming keeps only characters of the original |
| Spaza.PlanOrder | modules/spaza.js:102-123 | no accepted lines gives the usage prompt; otherwise the accepted lines, the delivery type, and an address only for delivery orders |
| Spaza.AcceptedAlwaysCreated | modules/spaza.js:125-126 | with unique product ids, the accepted lines always pass the stock check, so the order is created |
| Spaza.ItemLinesStep | modules/spaza.js:129-131 | the confirmation grows by one line per item |
| Spaza.ItemLineNames | modules/spaza.js:130 | an item's line names the item |
| Spaza.ItemLinesListEveryItem | modules/spaza.js:129-131 | every item's line is in the list |
| Spaza.ConfirmationMentionsItems | modules/spaza.js:128-137 | the confirmation names every ordered item |
| Spaza.BuildConfirmation | modules/spaza.js:128-137 | the loop builds the confirmation text |
| Spaza.HandleOrderRequest | modules/spaza.js:65-148 | no lines: usage and nothing changes; otherwise the store changes as `createOrder` would, and on success the confirmation is sent and returned; on failure the matching apology is returned and nothing is sent |
| Spaza.KeywordAt | modules/spaza.js:52 | the first stock keyword, in alternation order, that occurs at a position, ignoring case |
| Spaza.FirstKeyword | modules/spaza.js:52 | the leftmost position where a keyword occurs |
| Spaza.RemoveKeyword | modules/spaza.js:52 | removes only the first keyword occurrence, or nothing when there is none |
| Spaza.RemoveKeywordLength | modules/spaza.js:51-52 | a stock question loses exactly one keyword's length |
| Spaza.NotFoundRepeatsQuery | modules/spaza.js:191-193 | an unknown product's reply repeats the query |
| Spaza.StockAnswerFacts | modules/spaza.js:195-219 | the reply names the product, and is the in-stock text exactly when its stock is positive |
| Spaza.UnknownLanguageEnglish | modules/spaza.js:47 | a language without texts gets the English ones |
| Spaza.HandleMessage | modules/spaza.js:13-60 | the classified branch runs: only an order request changes the store or sends anything |
| Spaza.Respond | modules/spaza.js:17-59 | the read-only branches: catalog, hours, orders, delivery, stock, or `null` |
| Faq.StrLtAsymmetric | services/aiService.js:26 | the string order of `language DESC` is a strict order: never both ways |
| Faq.RankedBeforeTransitive | services/aiService.js:26 | `ORDER BY priority DESC, language DESC` is transitive |
| Faq.RankedBeforeTotal | services/aiService.js:26 | any two rules are comparable under that order |
| Faq.InsertRule | services/aiService.js:26 | inserting a rule into a ranking adds exactly that rule |
| Faq.PrependRanked | services/aiService.js:26 | a rule ranked before every rule of a ranking can head it |
| Faq.InsertRuleRanked | services/aiService.js:26 | insertion keeps a ranking ranked |
| Faq.RankRules | services/aiService.js:26 | the ordered rows are a permutation of the rows, in ranked order |
| Faq.CandidateRules | services/aiService.js:22-33 | exactly the business's rules in the customer's language or English, each as often as stored, ranked |
| Faq.LanguageBreaksTies | services/aiService.js:26 | at equal priority an English rule comes after a rule whose code sorts above 'en' |
| Faq.EnglishBeforeEarlierCodes | services/aiService.js:26 | at equal priority an English rule comes before a rule whose code sorts below 'en' |
| Faq.LanguageCodesAroundEnglish | services/aiService.js:26 | 'xh', 'zu' and 'st' sort above 'en', 'af' below, so English is their fallback but wins over Afrikaans |
| Faq.KeywordsTrimmed | services/aiService.js:42 | one trimmed keyword per `|`-separated piece |
| Faq.BlankKeywordMatchesAll | services/aiService.js:40-45 | a blank keyword (such as from 'a||b') makes the rule match every message |
| Faq.FirstMatch | services/aiService.js:36-49 | the first rule that matches, and no earlier rule matches; none only when no rule matches |
| Faq.MatchRule | services/aiService.js:37-48 | the rule test: some keyword contained, or the whole pattern contained |
| Faq.FirstAnswer | services/aiService.js:36-49 | the loop returns the answer of the first matching rule |
| Faq.FirstMatchIs | services/aiService.js:36-49 | a rule that matches after only non-matching rules is the one chosen |
| Faq.HelpTable | services/aiService.js:75-103 | every language's table has a barber help text |
| Faq.HelpMessage | services/aiService.js:74-105 | the help text of the business type in the language, the barber help otherwise; never empty |
| Faq.HelpFallbacks | services/aiService.js:103-104 | an unknown language falls back to English, an unknown type to the barber help |
| Faq.UnknownLanguageThanksEnglish | services/aiService.js:110-120 | an unknown language gets the English thanks |
| Faq.AIResponse | services/aiService.js:12-69 | nothing when AI is off; otherwise the first matching candidate rule's answer, else the greeting, help or thanks by keyword, else nothing |
| Faq.RuleBeatsFallback | services/aiService.js:36-56 | when some candidate rule matches, a rule answers, and it is that rule or one ranked before it |
| Faq.CandidateIndex | services/aiService.js:22-33 | every stored candidate rule is among the ordered rows |
| Faq.FirstMatchRanksFirst | services/aiService.js:36-49 | the chosen rule is at or before any matching rule |
| Faq.HiInsideWordsGreets | services/aiService.js:52-55 | any text containing 'hi', even inside a word such as 'this', gets the greeting when no rule matches |
| Faq.GetAIResponse | services/aiService.js:12-69 | the method returns the response the function specifies |
| Faq.FaqTable.constructor | services/aiService.js:125-137 | the table of stored rules and the next row id |
| Faq.FaqTable.AddFAQRule | services/aiService.js:125-137 | the row is appended with the next id, and success is reported |
| Faq.DefaultedRule | services/aiService.js:125 | a missing language is 'en', a missing priority 0; the other fields as given |
| Faq.DefaultRuleEverywhere | services/aiService.js:22-33 | a rule added without a language is a candidate for its business in every language |
| MessageParser.FromResult | services/messageParser.js:51-71 | a module's throw stays a throw, and only a resolved `null` is no reply |
| MessageParser.Dispatch | services/messageParser.js:41-54 | barber and car wash leave the products and orders alone, spaza leaves the bookings alone |
| MessageParser.ParseMessage | services/messageParser.js:23-72 | no business: the not-found failure and nothing changes; otherwise the customer is got or created, an unsupported type fails with nothing else changed, a throw becomes the error failure, and `handled` is exactly 'the module replied' |
| MessageParser.DetectLanguage | services/messageParser.js:77-92 | af exactly when an Afrikaans keyword occurs; xh, zu and st each exactly when its list has a keyword in the text and no earlier list does; en exactly when no keyword of any list occurs |
| MessageParser.LetterEMeansSotho | services/messageParser.js:82-89 | any text with an 'e' and no Afrikaans, Xhosa or Zulu keyword is taken as Sotho |
| MessageParser.EnglishHasNoE | services/messageParser.js:82-91 | a text detected as English never contains an 'e' |
| BotRegistry.Capitalise | services/botRegistry.js:17 | the first character upper-cased, the rest unchanged |
| BotRegistry.DefaultName | services/botRegistry.js:17 | the capitalised type followed by ' Bot' |
| BotRegistry.MetaFor | services/botRegistry.js:16-18 | each meta field as given, else its default; name and description never empty |
| BotRegistry.NoMetaDefaults | services/botRegistry.js:8-18 | without meta a bot gets every default |
| BotRegistry.Set | services/botRegistry.js:12-20 | the new registration is stored under its type and no other entry changes |
| BotRegistry.SetWellFormed | services/botRegistry.js:12-20 | registering keeps keys and order in step, each type once, each entry under its own type |
| BotRegistry.SetSize | services/botRegistry.js:12-20 | re-registering keeps size and order; a new type grows the table by one at the end |
| BotRegistry.HandlerOf | services/botRegistry.js:23-25 | a handler exactly for registered types, the registered one |
| BotRegistry.Listing | services/botRegistry.js:27-34 | one element per key, in insertion order, with the stored metadata |
| BotRegistry.ListedOnce | services/botRegistry.js:27-34 | every registered type is listed exactly once |
| BotRegistry.ListingAfterSet | services/botRegistry.js:12-34 | a new type is appended to the listing; a known one is replaced in its place, the rest kept |
| BotRegistry.ThreeRegistrations | services/botRegistry.js:12-34 | distinct registrations are listed in the order made |
| BotRegistry.LoadedBots | services/botRegistry.js:37-53 | after loading, barber, carwash and spaza are listed in that order and no other type has a handler |
| BotRegistry.Registry.Load | services/botRegistry.js:37-53 | the loaded registry is well formed and holds the three built-ins |
| BotRegistry.Registry.RegisterBot | services/botRegistry.js:8-21 | without a handler it throws the named message and changes nothing; otherwise it stores the registration with defaulted meta |
| BotRegistry.Registry.GetBotHandler | services/botRegistry.js:23-25 | the handler of the type, or `null` |
| BotRegistry.Registry.ListBots | services/botRegistry.js:27-34 | the listing of the registry |
| WhatsappService.Take | services/whatsappService.js:47 | `slice(0, n)`: the prefix of the shorter length |
| WhatsappService.ShapeButton | services/whatsappService.js:44-50 | type 'reply'; the id, or `btn_<position>`; the title cut to 20, or `Option <position>` |
| WhatsappService.TrimButtons | services/whatsappService.js:44-50 | the first three buttons at most, in order, each shaped for its position |
| WhatsappService.DefaultTitleLength | services/whatsappService.js:48 | a default title of the first three positions has 8 characters |
| WhatsappService.TrimmedButtonsFit | services/whatsappService.js:44-50 | every posted button has an id and a title of 1 to 20 characters, a prefix of the caller's title when given |
| WhatsappService.AsArgs | services/whatsappService.js:44-50 | the posted buttons as caller arguments, field by field |
| WhatsappService.TrimIdempotent | services/whatsappService.js:44-50 | passing the posted buttons back in posts them unchanged |
| WhatsappService.SendMessage | services/whatsappService.js:7-37 | missing credentials throw, exactly; otherwise the text payload to the recipient |
| WhatsappService.SendInteractiveMessage | services/whatsappService.js:39-85 | no or empty buttons throw first, missing credentials next; otherwise the interactive payload with the shaped buttons |
| WhatsappService.InteractiveButtonCount | services/whatsappService.js:40-50 | a posted interactive message has one to three buttons, three when the caller gave at least three |
| MessageController.FirstNonEmpty | project/controllers/messageController.js:20-32 | none exactly when all are empty; otherwise the first non-empty one |
| MessageController.FirstOfFour | project/controllers/messageController.js:20-32 | a `||` chain of four fields is that first non-empty one |
| MessageController.Extracted | project/controllers/messageController.js:20-34 | `from` as given, `text` the first non-empty text field or '', `buttonId` the first non-empty id field or `null` |
| MessageController.ExtractMessage | project/controllers/messageController.js:4-35 | throws exactly on an empty array on the path; `null` without payload or entry array; the first message's fields when one is delivered |
| MessageController.OnlyFirstRead | project/controllers/messageController.js:16-18 | later entries, changes and messages and the `object` field change nothing |
| MessageController.ButtonPayloadWins | project/controllers/messageController.js:27-32 | a button payload is the router's input whenever present |
| MessageController.TextMessageInput | project/controllers/messageController.js:20-32 | a plain text message reaches the router as its trimmed body, without button id |
| MessageController.HandleIncomingMessage | project/controllers/messageController.js:37-47 | a throw fails with nothing changed; nothing extracted succeeds with nothing changed; otherwise the router's specified effect |
| Webhook.VerifyWebhook | routes/whatsapp.js:17-30 | 200 with the challenge exactly for mode 'subscribe' with the configured token; 403 otherwise |
| Webhook.WrongTokenRefused | routes/whatsapp.js:24-29 | any other token is refused whatever the mode |
| Webhook.RouteOf | routes/whatsapp.js:40-100 | only a business-account body is read; the first message exactly when one is delivered; a crash exactly for an empty `messages` array |
| Webhook.ControllerAgrees | routes/whatsapp.js:41-48 | the message this route processes is the one the newer generation's controller extracts |
| Webhook.ChooseReply | routes/whatsapp.js:68-83 | the module's answer if handled and non-empty, else a non-empty AI answer, else the help text |
| Webhook.ReplyFor | routes/whatsapp.js:68-83 | the chosen reply is never empty, so a handled message is always answered |
| Webhook.UnansweredGetsHelp | routes/whatsapp.js:74-82 | an unhandled message of a business without AI gets the help text in the effective language |
| Webhook.MessageLog.constructor | modules/generic.js:76-88 | the messages table starts empty |
| Webhook.MessageLog.SaveMessage | modules/generic.js:76-88 | one row appended with the given fields |
| Webhook.AnswerParsed | routes/whatsapp.js:57-88 | a failure is sent back without the business id and nothing is saved; otherwise the incoming text is saved, then the chosen reply sent with the business id |
| Webhook.ReceiveMessage | routes/whatsapp.js:35-105 | the status is the route's; only a processed message changes anything, and it saves at most one row |
| Webhook.Tally | routes/whatsapp.js:175-182 | no more successes than sends |
| Webhook.TallyExtremes | routes/whatsapp.js:175-182 | all sends succeeded exactly when the count is the number of sends; none exactly when it is 0 |
| Webhook.BroadcastLogShape | routes/whatsapp.js:177-188 | one text per customer, in order, each with the business id and its own send's outcome |
| Webhook.BroadcastLogStep | routes/whatsapp.js:177-188 | each send extends the log by the next customer's message |
| Webhook.SendAll | routes/whatsapp.js:174-188 | one result per phone, in order, each the outcome of its own send, the count their tally, and the log the broadcast's sends |
| Webhook.TallyStep | routes/whatsapp.js:180-183 | a success adds one to the count, a failure nothing |
| Webhook.SendBroadcast | routes/whatsapp.js:134-208 | 400 exactly for a missing business id or message, with nothing sent; otherwise every customer is sent to, each send with its own outcome, the count tallied, and the record stored as sent with that count |
| Webhook.SentCountsAccepted | routes/whatsapp.js:174-203 | the `sent` count is the number of posts the Cloud API accepted, and 0 when credentials are missing |
| Text.Trim | project/core/router.js:47 | `trim()`: white space removed from both ends only; empty exactly for an all-space string |
| Text.TrimIdempotent | project/core/router.js:115 | trimming twice is trimming once |
| Text.ToLower | modules/barber.js:83 | `toLowerCase()`: the same length, each character lowered |
| Text.ToLowerIdempotent | modules/spaza.js:14 | lowering twice is lowering once |
| Text.Split | services/aiService.js:42 | `split(sep)`: pieces without the separator whose join is the input |
| Text.FirstWord | modules/spaza.js:90 | `split(' ')[0]`: a prefix without a space, ending at the first space |
| Text.FirstDateAt | modules/barber.js:136 | `/\d{4}-\d{2}-\d{2}/`: the leftmost position where a date matches |
| Text.FirstTimeAt | modules/barber.js:148 | `/\d{1,2}:\d{2}/`: the leftmost position where a time matches |
| Text.MatchTime | modules/barber.js:148 | the text at the leftmost time match, four or five characters with a colon; none exactly when no position matches |
| Text.MatchDate | modules/barber.js:136 | the ten characters at the leftmost date match; none exactly when no position matches |
| Text.DigitRun | modules/barber.js:224 | the maximal run of digits at a position |
| Text.ParseLeadingInt | modules/spaza.js:84 | `parseInt` is NaN exactly when the word does not start with a digit |
| Text.MatchNumber | modules/barber.js:224-226 | `/#?(\d+)/` finds a number exactly when the text has a digit |
| Text.NatToStringValue | modules/booking.js:154 | a rendered number reads back as itself |
| Text.PadStart | modules/barber.js:152 | `padStart(n, c)`: unchanged when long enough, otherwise padded on the left to length `n` |
| Text.TwoDigits | modules/booking.js:154 | an hour or minute below 100 pads to two digits of the same value |
| Ordering.StrLtIrreflexive | modules/products.js:30 | SQL text order is irreflexive |
| Ordering.StrLtTransitive | modules/products.js:30 | SQL text order is transitive |
| Ordering.StrLtTotal | modules/products.js:30 | SQL text order is total |
| Ordering.KeyLeTransitive | modules/barber.js:210 | a composite `ORDER BY` key order is transitive |
| Ordering.KeyLeTotal | modules/barber.js:210 | a composite `ORDER BY` key order is total |
| Ordering.InsertSorted | modules/barber.js:210 | inserting into a sorted list keeps it sorted |
| Ordering.SortBy | modules/products.js:30 | `ORDER BY`: a permutation of the rows, sorted by the key |
| Ordering.Select | modules/products.js:24-29 | `WHERE`: exactly the rows satisfying the condition, each as often as stored |
| Ordering.SelectNone | modules/products.js:24-29 | no row satisfies the condition: nothing is selected |

## Left out

- The HTTP layer (Express, `axios`) and logging. Whether the deployment's service has an interactive send is the `interactive` flag of `Outbound.Env`.
- Outbound.Outbox.SendWhatsAppMessage: outside the broadcast, a send's outcome is the `credentials` flag of `Outbound.Env`, so a post the Cloud API rejects despite valid credentials is not modelled there. The broadcast takes each post's answer as a parameter (`accepted`, `Outbound.Outbox.SendWhatsAppMessageAnswered`), since its `sent` count depends on it.
- The outgoing-message row that `sendWhatsAppMessage` saves after a successful post, and the customer lookup before it (modules/generic.js:119-123). The send log records the same texts. Every recipient the model sends to with a business id is already that business's customer.
- Database failures. Every SQL query is modelled as succeeding, so the `catch` branches that answer a database error are not modelled. Only throws that the code itself provokes are modelled.
- Concurrency between webhook deliveries. Every request runs to completion before the next one starts.
- The clock. `today` and `tomorrow` are parameters, which covers `new Date().toISOString()` and the date arithmetic in modules/barber.js and modules/carwash.js.
- The rendering of the spaza catalogue (`formatProductCatalog`) and of the order list (`handleViewOrders`). The replies carry the rows; the route sends them as the given `listText`.
- Spaza order extraction. The `matchAll` of order pairs is not modelled: the (quantity, word) pairs of the text are a parameter `cs`. There is one pair per regex match, in order.
- The bodies of `SELECT DISTINCT phone_number`. The broadcast's phone list is a parameter, in the order the database returns it.
- The broadcast's status update (routes/whatsapp.js:191-195). It is fire-and-forget. The returned record shows it applied, with sent count and status 'sent'.
- The `/api/messages/send` route (routes/whatsapp.js:110-129) and the `/api/bots` route beyond `BotRegistry.Listing` (routes/whatsapp.js:213-218). They only wrap a send and a listing.
- `getFAQRules` (services/aiService.js:141-152). It reads one business's rules for administration, and no modelled handler calls it.
- Prices are whole cents. `toFixed(2)` on a float is taken to print cents exactly.
- `parseInt` on digit runs beyond 2^53 loses precision in JavaScript. The model keeps the exact value.
- Case mapping is ASCII only. `toLowerCase` and `toUpperCase` on non-ASCII letters are not modelled. (`trim` uses the full JavaScript white-space and line-terminator set, `Text.IsSpace`.)
- `slice(0, 20)` on titles counts UTF-16 code units in JavaScript and characters here.
- A property lookup on a key such as `constructor` or `__proto__` finds an object in JavaScript. The model's tables treat every key as unknown unless it is listed.
- `body.entry` given as an object with a `"0"` key is read as having no element 0.
- CategoryOrder lists categories in first-appearance order. `Object.entries` lists integer-like keys (a category named `"2"`) first, in ascending numeric order; such category names are not modelled.
- CoreRouter's branch for a module with interactive capability is hypothetical for the older generation: modules/barber.js and modules/carwash.js export neither `startInteractiveFlow` nor `handleInteractiveStep`, so the model takes the set of capable modules as the parameter `capable` and borrows the step machines of project/modules/ (`BarberFlow`, `CarwashFlow`) to give that branch a meaning. With the shipped modules `capable` is empty (`CoreRouter.StartWithoutCapability`).
- CarwashBot.HandleMessage and CarwashBot.Respond answer the queue question with the corrected count (`QueueCount`). The shipped code reads a missing property and replies with `undefined` cars and `NaN` minutes; that is the as-written member listed under Findings.
- `MessageParser.DetectLanguage` is not called from any handler. It is modelled as a function, with its properties.
- MessageParser.Dispatch: states only which tables each module may change. What each module replies and does is stated on `BarberBot.HandleMessage`, `CarwashBot.HandleMessage` and `Spaza.HandleMessage`.
- MessageParser.ParseMessage: for a supported type, the response is related to the module only through `Dispatch`'s frame. The module's own effects are stated on the module handlers.
- Webhook.ReceiveMessage: for a processed message it states the status, and that at most one row is saved. The save-then-reply order and the reply itself are stated on `Webhook.AnswerParsed`, and the parse on `MessageParser.ParseMessage`.
- Webhook.ReplyFor: states that the reply is never empty. Which reply it is, is `Webhook.ChooseReply`'s contract.

## Findings

| source | as written | input that shows it | evidently intended | confidence | as-written member | corrected member |
|---|---|---|---|---|---|---|
| modules/carwash.js:84-95 | `db.all` passes an array of rows, and `row.count` is read off that array, so the count is `undefined` and the wait `NaN` | any 'queue' message | `db.get` (or `rows[0].count`): the number of today's pending and confirmed bookings, with twenty minutes' wait each | not executed | CarwashBot.QueueAsWrittenShowsNoCount | CarwashBot.QueueGrows |
| project/core/router.js:43-45 | `menu` calls `sendInteractiveMessage`, which project/services/whatsappService.js does not export, so the call throws and no menu is sent | the message 'menu' | the service exports an interactive send, and the three menu buttons are posted | not executed | ProjectRouter.MenuThrowsAsShipped | ProjectRouter.MenuSentWithInteractiveSend |
