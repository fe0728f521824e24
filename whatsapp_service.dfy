/** The outbound service of the root bot: what `sendMessage` and
    `sendInteractiveMessage` check and post. The post itself is not
    modelled; a function's `Ok` value is the payload it would post. */
module WhatsappService {
  import opened Wrappers
  import opened Text

  /** A button as the caller passes it; an empty string is a missing id or title. */
  datatype ButtonArg = ButtonArg(id: string, title: string)

  /** `{ type: 'reply', reply: { id, title } }` */
  datatype ReplyButton = ReplyButton(kind: string, id: string, title: string)

  datatype Payload =
    | TextPayload(to: string, body: string)
    | InteractivePayload(to: string, body: string, buttons: seq<ReplyButton>)

  const MaxButtons := 3
  const MaxTitle := 20
  const ReplyKind := "reply"
  const IdPrefix := "btn_"
  const TitlePrefix := "Option "
  const ButtonsRequired := "Buttons array is required for interactive messages"
  const MissingCredentials := "Missing WhatsApp credentials"

  function Min(a: nat, b: nat): nat {
    if a <= b then a else b
  }

  /** `s.slice(0, n)` */
  function Take(s: string, n: nat): (r: string)
    ensures |r| == Min(|s|, n) && r == s[..|r|]
  {
    s[..Min(|s|, n)]
  }

  /** The button at position `index` (counting from 0): a missing id becomes
      `btn_<index + 1>`, the title is cut to 20 characters, and a missing
      title becomes `Option <index + 1>`. */
  function ShapeButton(b: ButtonArg, index: nat): (r: ReplyButton)
    ensures r.kind == ReplyKind && r.id != "" && r.title != ""
    ensures b.id != "" ==> r.id == b.id
    ensures b.id == "" ==> r.id == IdPrefix + NatToString(index + 1)
    ensures b.title != "" ==> r.title == Take(b.title, MaxTitle)
    ensures b.title == "" ==> r.title == TitlePrefix + NatToString(index + 1)
  {
    ReplyButton(ReplyKind, Or(b.id, IdPrefix + NatToString(index + 1)),
                Or(Take(b.title, MaxTitle), TitlePrefix + NatToString(index + 1)))
  }

  /** `buttons.slice(0, 3).map(...)`: at most the first three buttons, in
      their order, each shaped for its position. */
  function TrimButtons(buttons: seq<ButtonArg>): (r: seq<ReplyButton>)
    ensures |r| == Min(|buttons|, MaxButtons)
    ensures forall i | 0 <= i < |r| :: r[i] == ShapeButton(buttons[i], i)
  {
    seq(Min(|buttons|, MaxButtons), i requires 0 <= i < Min(|buttons|, MaxButtons) => ShapeButton(buttons[i], i))
  }

  /** The default titles of the first three positions are eight characters. */
  lemma DefaultTitleLength(index: nat)
    requires index < MaxButtons
    ensures |TitlePrefix + NatToString(index + 1)| == 8
  {
    assert |NatToString(index + 1)| == 1;
  }

  /** Every posted button has type 'reply', an id, and a title of one to
      twenty characters, and the title is the start of the caller's title
      whenever that was given. */
  lemma TrimmedButtonsFit(buttons: seq<ButtonArg>)
    ensures forall i | 0 <= i < |TrimButtons(buttons)| ::
              var r := TrimButtons(buttons)[i];
              r.kind == ReplyKind && r.id != "" && 1 <= |r.title| <= MaxTitle
              && (buttons[i].title != "" ==> r.title == buttons[i].title[..|r.title|])
  {
    forall i | 0 <= i < |TrimButtons(buttons)|
      ensures 1 <= |TrimButtons(buttons)[i].title| <= MaxTitle
    {
      if buttons[i].title == "" {
        DefaultTitleLength(i);
      }
    }
  }

  /** The buttons as a caller would pass them again. */
  function AsArgs(rs: seq<ReplyButton>): (bs: seq<ButtonArg>)
    ensures |bs| == |rs| && forall i | 0 <= i < |rs| :: bs[i] == ButtonArg(rs[i].id, rs[i].title)
  {
    seq(|rs|, i requires 0 <= i < |rs| => ButtonArg(rs[i].id, rs[i].title))
  }

  /** Shaping is idempotent: passing the posted buttons back in posts them
      unchanged. */
  lemma TrimIdempotent(buttons: seq<ButtonArg>)
    ensures TrimButtons(AsArgs(TrimButtons(buttons))) == TrimButtons(buttons)
  {
    var r := TrimButtons(buttons);
    TrimmedButtonsFit(buttons);
    forall i | 0 <= i < |r|
      ensures ShapeButton(AsArgs(r)[i], i) == r[i]
    {
      assert |r[i].title| <= MaxTitle;
    }
  }

  /** `sendMessage(to, text)`: without a token or a phone-number id it
      throws before any post. */
  function SendMessage(credentials: bool, to: string, text: string): (r: Result<Payload>)
    ensures !credentials <==> r == Err(MissingCredentials)
    ensures r.Ok? ==> r.value == TextPayload(to, text)
  {
    if !credentials then Err(MissingCredentials) else Ok(TextPayload(to, text))
  }

  /** `sendInteractiveMessage(to, bodyText, buttons)`; `None` is a `buttons`
      value that is not an array. The buttons are checked before the
      credentials. */
  function SendInteractiveMessage(credentials: bool, to: string, bodyText: string,
                                  buttons: Option<seq<ButtonArg>>): (r: Result<Payload>)
    ensures (buttons.None? || buttons.value == []) <==> r == Err(ButtonsRequired)
    ensures buttons.Some? && buttons.value != [] && !credentials ==> r == Err(MissingCredentials)
    ensures r.Ok? <==> buttons.Some? && buttons.value != [] && credentials
    ensures r.Ok? ==> r.value == InteractivePayload(to, bodyText, TrimButtons(buttons.value))
  {
    if buttons.None? || buttons.value == [] then Err(ButtonsRequired)
    else if !credentials then Err(MissingCredentials)
    else Ok(InteractivePayload(to, bodyText, TrimButtons(buttons.value)))
  }

  /** A posted interactive message carries one to three buttons, the first
      ones the caller gave. */
  lemma InteractiveButtonCount(credentials: bool, to: string, bodyText: string, buttons: Option<seq<ButtonArg>>)
    requires SendInteractiveMessage(credentials, to, bodyText, buttons).Ok?
    ensures var p := SendInteractiveMessage(credentials, to, bodyText, buttons).value;
            1 <= |p.buttons| <= MaxButtons
            && (|buttons.value| >= MaxButtons ==> |p.buttons| == MaxButtons)
            && forall i | 0 <= i < |p.buttons| :: p.buttons[i] == ShapeButton(buttons.value[i], i)
  {
  }
}
