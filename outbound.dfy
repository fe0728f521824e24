/** Outbound WhatsApp messages. Every send the bot makes is recorded as an
    entry appended to a log, together with the outcome the sending function
    reports; the HTTP post itself is not modelled. */
module Outbound {
  import opened Wrappers

  /** A reply button: `{ id, title }`. */
  datatype Button = Button(id: string, title: string)

  /** What a send delivers to the Graph API. */
  datatype Message =
    | Text(to: string, body: string, businessId: Option<int>)
    | Interactive(to: string, body: string, buttons: seq<Button>, businessId: Option<int>)

  /** One log entry: the message posted, and the success flag the send reported. */
  datatype Entry = Entry(message: Message, success: bool)

  /** What a deployment provides: WhatsApp credentials (token and phone-number
      id), and whether the function the routers call for interactive sends
      exists at all. */
  datatype Env = Env(credentials: bool, interactive: bool)

  /** What one send call does: the entries it appends, and whether it returned
      normally (`false`: it threw). */
  datatype Sent = Sent(entries: seq<Entry>, ok: bool)

  /** `sendMessage` of the project service: throws 'Missing WhatsApp
      credentials' before posting when a credential is missing. */
  function PostText(env: Env, to: string, body: string): (s: Sent)
    ensures s.ok == env.credentials
    ensures s.ok ==> s.entries == [Entry(Text(to, body, None), true)]
    ensures !s.ok ==> s.entries == []
  {
    if env.credentials then Sent([Entry(Text(to, body, None), true)], true)
    else Sent([], false)
  }

  /** An interactive send as the routers call it: a call of a missing function
      throws a TypeError; when present it throws on missing credentials like
      `sendInteractiveMessage`, and otherwise posts the buttons. */
  function PostInteractive(env: Env, to: string, body: string, buttons: seq<Button>,
                           businessId: Option<int>): (s: Sent)
    ensures s.ok == (env.interactive && env.credentials)
    ensures s.ok ==> s.entries == [Entry(Interactive(to, body, buttons, businessId), true)]
    ensures !s.ok ==> s.entries == []
  {
    if env.interactive && env.credentials then
      Sent([Entry(Interactive(to, body, buttons, businessId), true)], true)
    else Sent([], false)
  }

  /** `sendWhatsAppMessage` of the shared module: it never throws; without
      credentials it reports `success: false` and posts nothing. */
  function PostGeneric(env: Env, to: string, body: string, businessId: Option<int>): (s: Sent)
    ensures s.ok
    ensures s.entries == [Entry(Text(to, body, businessId), env.credentials)]
  {
    Sent([Entry(Text(to, body, businessId), env.credentials)], true)
  }

  /** The send log of one process. */
  class Outbox {
    var log: seq<Entry>
    const env: Env

    constructor (env: Env)
      ensures this.env == env && log == []
    {
      this.env := env;
      log := [];
    }

    method SendMessage(to: string, body: string) returns (ok: bool)
      modifies this`log
      ensures log == old(log) + PostText(env, to, body).entries
      ensures ok == PostText(env, to, body).ok
    {
      var s := PostText(env, to, body);
      log := log + s.entries;
      ok := s.ok;
    }

    method SendInteractive(to: string, body: string, buttons: seq<Button>, businessId: Option<int>)
      returns (ok: bool)
      modifies this`log
      ensures log == old(log) + PostInteractive(env, to, body, buttons, businessId).entries
      ensures ok == PostInteractive(env, to, body, buttons, businessId).ok
    {
      var s := PostInteractive(env, to, body, buttons, businessId);
      log := log + s.entries;
      ok := s.ok;
    }

    method SendWhatsAppMessage(to: string, body: string, businessId: Option<int>)
      returns (success: bool)
      modifies this`log
      ensures log == old(log) + PostGeneric(env, to, body, businessId).entries
      ensures success == env.credentials
    {
      var s := PostGeneric(env, to, body, businessId);
      log := log + s.entries;
      success := env.credentials;
    }

    /** `sendWhatsAppMessage` with the Cloud API's answer to this one post
        given as `accepted`: it reports success exactly when credentials are
        present and the post was accepted. */
    method SendWhatsAppMessageAnswered(to: string, body: string, businessId: Option<int>, accepted: bool)
      returns (success: bool)
      modifies this`log
      ensures success == (env.credentials && accepted)
      ensures log == old(log) + [Entry(Text(to, body, businessId), success)]
    {
      success := env.credentials && accepted;
      log := log + [Entry(Text(to, body, businessId), success)];
    }
  }
}
