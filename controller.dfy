/** The webhook controller of the newer bot generation: pull the sender, the
    text and the button id out of a webhook body and hand them to the router. */
module MessageController {
  import opened Wrappers
  import opened Text
  import opened RouterCommon
  import opened CloudPayload
  import opened ProjectRouter

  const TypeError := "TypeError"

  /** The first non-empty string of `xs`: what a chain `a || b || ...` of
      string fields yields before its fallback. */
  function FirstNonEmpty(xs: seq<string>): (r: Option<string>)
    ensures r.None? <==> forall i | 0 <= i < |xs| :: xs[i] == ""
    ensures r.Some? ==> exists i | 0 <= i < |xs| :: xs[i] == r.value && r.value != ""
                                                  && forall j | 0 <= j < i :: xs[j] == ""
  {
    if xs == [] then None
    else if xs[0] != "" then Some(xs[0])
    else
      var r := FirstNonEmpty(xs[1..]);
      assert forall i | 1 <= i < |xs| :: xs[i] == xs[1..][i - 1];
      r
  }

  /** Four string fields chained with `||`. */
  lemma FirstOfFour(a: string, b: string, c: string, d: string)
    ensures FirstNonEmpty([a, b, c, d]) == if Or(a, Or(b, Or(c, d))) == "" then None else Some(Or(a, Or(b, Or(c, d))))
  {
    assert [d][1..] == [];
    assert FirstNonEmpty([d]) == if d == "" then None else Some(d);
    assert [c, d][1..] == [d];
    assert FirstNonEmpty([c, d]) == if Or(c, d) == "" then None else Some(Or(c, d));
    assert [b, c, d][1..] == [c, d];
    assert FirstNonEmpty([b, c, d]) == if Or(b, Or(c, d)) == "" then None else Some(Or(b, Or(c, d)));
    assert [a, b, c, d][1..] == [b, c, d];
  }

  /** The message fields `text` is taken from, in order. */
  function TextSources(m: WaMessage): seq<string> {
    [m.textBody, m.buttonText, m.buttonReplyTitle, m.listReplyTitle]
  }

  /** The message fields `buttonId` is taken from, in order. */
  function ButtonIdSources(m: WaMessage): seq<string> {
    [m.buttonPayload, m.buttonText, m.buttonReplyId, m.listReplyId]
  }

  /** `{ from, text, buttonId }` of one message: `from` as it is, `text` the
      first non-empty text field or '', `buttonId` the first non-empty id
      field or `null`. */
  function Extracted(m: WaMessage): (i: Incoming)
    ensures i.from == m.from
    ensures i.text == FirstNonEmpty(TextSources(m)).GetOr("")
    ensures i.buttonId == FirstNonEmpty(ButtonIdSources(m))
  {
    var text := Or(m.textBody, Or(m.buttonText, Or(m.buttonReplyTitle, Or(m.listReplyTitle, ""))));
    var id := Or(m.buttonPayload, Or(m.buttonText, Or(m.buttonReplyId, m.listReplyId)));
    FirstOfFour(m.textBody, m.buttonText, m.buttonReplyTitle, m.listReplyTitle);
    FirstOfFour(m.buttonPayload, m.buttonText, m.buttonReplyId, m.listReplyId);
    Incoming(m.from, text, if id == "" then None else Some(id))
  }

  /** The bodies on which `extractMessage` throws: the guard lets an empty
      `entry`, `changes` or `messages` array through, and `[0]` of it is
      `undefined`. */
  predicate EmptyOnPath(payload: Option<Body>) {
    payload.Some? && payload.value.entry.Entries?
    && var es := payload.value.entry.items;
       (|es| == 0
        || (es[0].changes.Some?
            && (|es[0].changes.value| == 0
                || (es[0].changes.value[0].value.Some? && es[0].changes.value[0].value.value.messages.Some?
                    && |es[0].changes.value[0].value.value.messages.value| == 0))))
  }

  /** `extractMessage(payload)`: `null` for a missing payload, a missing or
      non-array `entry`, or a missing `changes`, `value` or `messages` on the
      path; the first message's fields otherwise. `Err` is a throw. */
  function ExtractMessage(payload: Option<Body>): (r: Result<Option<Incoming>>)
    ensures r.Err? <==> EmptyOnPath(payload)
    ensures payload.None? || !payload.value.entry.Entries? ==> r == Ok(None)
    ensures forall m | payload.Some? && Delivers(payload.value, m) :: r == Ok(Some(Extracted(m)))
    ensures r.Ok? && r.value.Some? ==> exists m :: payload.Some? && Delivers(payload.value, m) && r.value.value == Extracted(m)
  {
    if payload.None? || !payload.value.entry.Entries? then Ok(None)
    else
      var es := payload.value.entry.items;
      if |es| == 0 then Err(TypeError)
      else if es[0].changes.None? then Ok(None)
      else
        var cs := es[0].changes.value;
        if |cs| == 0 then Err(TypeError)
        else if cs[0].value.None? || cs[0].value.value.messages.None? then Ok(None)
        else
          var ms := cs[0].value.value.messages.value;
          if |ms| == 0 then Err(TypeError)
          else
            assert Delivers(payload.value, ms[0]);
            Ok(Some(Extracted(ms[0])))
  }

  /** Only the first entry, change and message are read, and never `object`:
      dropping everything after them changes nothing. */
  lemma OnlyFirstRead(objectType: string, e: EntryObj, es: seq<EntryObj>, c: Change, cs: seq<Change>,
                      v: Value, m: WaMessage, ms: seq<WaMessage>)
    ensures ExtractMessage(Some(Body(objectType, Entries([e] + es)))) == ExtractMessage(Some(Body("", Entries([e]))))
    ensures ExtractMessage(Some(Body(objectType, Entries([EntryObj(Some([c] + cs))]))))
            == ExtractMessage(Some(Body(objectType, Entries([EntryObj(Some([c]))]))))
    ensures ExtractMessage(Some(Body(objectType, Entries([EntryObj(Some([Change(Some(v.(messages := Some([m] + ms))))]))]))))
            == Ok(Some(Extracted(m)))
  {
    assert ([e] + es)[0] == e;
    assert ([c] + cs)[0] == c;
    assert ([m] + ms)[0] == m;
  }

  /** A pressed button wins over the text: the router's input is the trimmed
      button payload whenever the message has one. */
  lemma ButtonPayloadWins(m: WaMessage)
    requires m.buttonPayload != ""
    ensures InputPayload(Extracted(m)) == Trim(m.buttonPayload)
  {
  }

  /** A plain text message reaches the router as its trimmed body, with no
      button id. */
  lemma TextMessageInput(m: WaMessage)
    requires m.textBody != "" && ButtonIdSources(m) == ["", "", "", ""]
    ensures Extracted(m).buttonId.None?
    ensures InputPayload(Extracted(m)) == Trim(m.textBody)
  {
    assert FirstNonEmpty(ButtonIdSources(m)).None?;
  }

  /** `handleIncomingMessage(payload)`: the router runs only on an extracted
      message; `ok` is false when an exception propagates. */
  method HandleIncomingMessage(router: Router, payload: Option<Body>) returns (ok: bool)
    requires router.Valid()
    modifies router`userStates, router.outbox`log, router.userStates.Values
    ensures router.Valid()
    ensures ExtractMessage(payload).Err? ==> !ok && router.Model() == old(router.Model())
    ensures ExtractMessage(payload) == Ok(None) ==> ok && router.Model() == old(router.Model())
    ensures ExtractMessage(payload).Ok? && ExtractMessage(payload).value.Some? ==>
              Outcome(router.Model(), ok)
              == HandleMessageSpec(router.outbox.env, old(router.Model()), ExtractMessage(payload).value.value)
  {
    var incoming := ExtractMessage(payload);
    if incoming.Err? {
      return false;
    }
    if incoming.value.None? {
      return true;
    }
    ok := router.HandleMessage(incoming.value.value);
  }
}
