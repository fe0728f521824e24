/** The parts of a WhatsApp Cloud API webhook body the bots read. An empty
    string stands for a missing (or otherwise falsy) string field, `None` for
    a missing array or object. */
module CloudPayload {
  import opened Wrappers

  /** One element of `value.messages`: `from`, `id`, `text.body`,
      `button.payload`, `button.text`, and the `interactive` button and list
      replies' ids and titles. */
  datatype WaMessage = WaMessage(from: string, id: string, textBody: string,
                                 buttonPayload: string, buttonText: string,
                                 buttonReplyId: string, buttonReplyTitle: string,
                                 listReplyId: string, listReplyTitle: string)

  /** `changes[i].value`: its messages, and whether it carries `statuses`. */
  datatype Value = Value(messages: Option<seq<WaMessage>>, statuses: bool)

  datatype Change = Change(value: Option<Value>)

  datatype EntryObj = EntryObj(changes: Option<seq<Change>>)

  /** `body.entry`: missing, present but not an array, or an array. */
  datatype EntryField = NoEntry | EntryObject | Entries(items: seq<EntryObj>)

  /** The webhook body: `object` and `entry`. */
  datatype Body = Body(objectType: string, entry: EntryField)

  /** The message at the head of every array on the path
      `entry[0].changes[0].value.messages[0]`. */
  ghost predicate Delivers(b: Body, m: WaMessage) {
    b.entry.Entries? && |b.entry.items| > 0
    && b.entry.items[0].changes.Some? && |b.entry.items[0].changes.value| > 0
    && b.entry.items[0].changes.value[0].value.Some?
    && b.entry.items[0].changes.value[0].value.value.messages.Some?
    && |b.entry.items[0].changes.value[0].value.value.messages.value| > 0
    && b.entry.items[0].changes.value[0].value.value.messages.value[0] == m
  }
}
