/** The command router of the older bot generation. It routes like the newer
    one, but it only starts a flow whose module offers the interactive entry
    points, remembers the business in the session, falls back to a text menu
    when the interactive menu cannot be sent, and tells its caller whether
    it handled the message. */
module CoreRouter {
  import opened Wrappers
  import opened Text
  import opened Outbound
  import opened Sessions
  import opened RouterCommon
  import BarberFlow
  import CarwashFlow

  const FallbackMenu := "Available services:\n1. Barber\n2. Car Wash\nReply with \"barber\" or \"carwash\" to continue."

  const HelpHead := "CSonic Bot Commands for "
  const HelpTail := ":\n- menu: view available services\n- barber: book a barber appointment\n- carwash: request a car wash\n- help: show this menu again"

  function HelpText(businessName: string): string {
    HelpHead + businessName + HelpTail
  }

  /** The bits of the business record the router reads. */
  datatype BusinessRef = BusinessRef(id: int, name: string)

  /** `{ from, text, buttonId, business }` as the webhook passes it. */
  datatype Incoming = Incoming(from: string, text: string, buttonId: Option<string>,
                               business: Option<BusinessRef>)

  /** `business?.id`, passed along with the context's sends. */
  function ContextBusinessId(b: Option<BusinessRef>): Option<int> {
    if b.Some? then Some(b.value.id) else None
  }

  /** `ctx.business?.id || null`, kept in the session: a zero id is falsy. */
  function StoredBusinessId(b: Option<BusinessRef>): (r: Option<int>)
    ensures r.Some? <==> b.Some? && b.value.id != 0
    ensures r.Some? ==> r.value == b.value.id
  {
    if b.Some? && b.value.id != 0 then Some(b.value.id) else None
  }

  datatype World = World(states: map<string, SessionState>, log: seq<Entry>)

  /** The state reached, and whether the handler returned normally. */
  datatype Outcome = Outcome(world: World, ok: bool)

  function Emit(w: World, s: Sent): World {
    World(w.states, w.log + s.entries)
  }

  /** `sendMenu`: the interactive menu, or, when that send throws, the text
      menu; it never throws itself. */
  function SendMenuSpec(env: Env, w: World, to: string, b: Option<BusinessRef>): (o: Outcome)
    ensures o.ok && o.world.states == w.states
  {
    var s := PostInteractive(env, to, MenuPrompt, MenuButtons, ContextBusinessId(b));
    if s.ok then Outcome(Emit(w, s), true)
    else Outcome(Emit(w, PostGeneric(env, to, FallbackMenu, ContextBusinessId(b))), true)
  }

  /** `business?.name || 'CSonic'` */
  function BusinessName(b: Option<BusinessRef>): (r: string)
    ensures r != ""
    ensures b.Some? && b.value.name != "" ==> r == b.value.name
  {
    if b.Some? && b.value.name != "" then b.value.name else "CSonic"
  }

  function SendHelpSpec(env: Env, w: World, to: string, b: Option<BusinessRef>): Outcome {
    Outcome(Emit(w, PostGeneric(env, to, HelpText(BusinessName(b)), ContextBusinessId(b))), true)
  }

  function UnknownSpec(env: Env, w: World, to: string, b: Option<BusinessRef>): Outcome {
    SendMenuSpec(env, Emit(w, PostGeneric(env, to, UnknownText, ContextBusinessId(b))), to, b)
  }

  /** `handleModuleResponse`: replies go out with the session's business id;
      the menu after a done response uses the context's. */
  function ModuleResponseSpec(env: Env, w: World, to: string, b: Option<BusinessRef>, r: Response): Outcome
    requires to in w.states
  {
    var s := DeliverSpec(env, to, w.states[to].businessId, r);
    var w1 := Emit(w, s);
    if !s.ok then Outcome(w1, false)
    else
      var w2 := if r.nextStep.Some? then World(w1.states[to := w1.states[to].(step := r.nextStep)], w1.log)
                else w1;
      if r.done then SendMenuSpec(env, World(w2.states - {to}, w2.log), to, b) else Outcome(w2, true)
  }

  /** The send of a module's response: as buttons when it has any. */
  function DeliverSpec(env: Env, to: string, bid: Option<int>, r: Response): Sent {
    if r.buttons.Some? then PostInteractive(env, to, r.message, r.buttons.value, bid)
    else PostGeneric(env, to, r.message, bid)
  }

  /** `startFlow`: nothing happens unless the module offers
      `startInteractiveFlow` and `handleInteractiveStep`. */
  function StartFlowSpec(env: Env, capable: set<Flow>, w: World, f: Flow, to: string,
                         b: Option<BusinessRef>): Outcome {
    if f !in capable then Outcome(w, true)
    else
      var states := GetStateSpec(w.states, to);
      var st := states[to].(flow := Some(Keyword(f)), step := None, data := map[],
                            businessId := StoredBusinessId(b));
      ModuleResponseSpec(env, World(states[to := st], w.log), to, b, FlowStart(f))
  }

  /** `continueFlow`; calling a missing `handleInteractiveStep` throws. */
  function ContinueSpec(env: Env, capable: set<Flow>, w: World, f: Flow, to: string,
                        b: Option<BusinessRef>, input: string): Outcome {
    var states := GetStateSpec(w.states, to);
    if f !in capable then Outcome(World(states, w.log), false)
    else
      var o := FlowStep(f, input, states[to].step, states[to].data);
      ModuleResponseSpec(env, World(states[to := states[to].(step := o.step, data := o.data)], w.log),
                         to, b, o.response)
  }

  function RouteSpec(env: Env, capable: set<Flow>, w: World, c: Command, to: string,
                     b: Option<BusinessRef>): Outcome {
    match c
    case Menu => SendMenuSpec(env, World(w.states - {to}, w.log), to, b)
    case Help => SendHelpSpec(env, World(w.states - {to}, w.log), to, b)
    case Start(f) => StartFlowSpec(env, capable, w, f, to, b)
  }

  /** What `handleIncomingPayload` settles to: the state reached, whether it
      resolved, and the value it resolved with. */
  datatype Answer = Answer(outcome: Outcome, handled: bool)

  function DispatchSpec(env: Env, capable: set<Flow>, w: World, m: Incoming, route: Route): Answer {
    match route
    case EmptyInput => Answer(UnknownSpec(env, w, m.from, m.business), true)
    case Cmd(c) => Answer(RouteSpec(env, capable, w, c, m.from, m.business), true)
    case Continue(f) => Answer(ContinueSpec(env, capable, w, f, m.from, m.business, Payload(m.buttonId, m.text)), true)
    case NoMatch => Answer(Outcome(w, true), false)
  }

  function RouteOf(w: World, m: Incoming): Route {
    Classify(w.states, m.from, ToLower(Payload(m.buttonId, m.text)))
  }

  /** `handleIncomingPayload`. */
  function HandlePayloadSpec(env: Env, capable: set<Flow>, w: World, m: Incoming): Answer {
    DispatchSpec(env, capable, w, m, RouteOf(w, m))
  }

  /** Empty input gets the unknown reply and the menu, creates no record,
      and counts as handled. */
  lemma EmptyInputHandled(env: Env, capable: set<Flow>, w: World, m: Incoming)
    requires Payload(m.buttonId, m.text) == ""
    ensures var a := HandlePayloadSpec(env, capable, w, m);
            a.handled && a.outcome.ok && a.outcome.world.states == w.states
            && a.outcome.world.log[..|w.log| + 1]
               == w.log + [Entry(Text(m.from, UnknownText, ContextBusinessId(m.business)), env.credentials)]
            && a.outcome == SendMenuSpec(env, Emit(w, PostGeneric(env, m.from, UnknownText,
                                                                  ContextBusinessId(m.business))),
                                         m.from, m.business)
  {
    assert RouteOf(w, m) == EmptyInput;
    var w1 := Emit(w, PostGeneric(env, m.from, UnknownText, ContextBusinessId(m.business)));
    assert HandlePayloadSpec(env, capable, w, m).outcome == SendMenuSpec(env, w1, m.from, m.business);
  }

  /** Input with no command and no active flow sends nothing and resolves `false`. */
  lemma NoMatchUnhandled(env: Env, capable: set<Flow>, w: World, m: Incoming)
    requires RouteOf(w, m) == NoMatch
    ensures HandlePayloadSpec(env, capable, w, m) == Answer(Outcome(w, true), false)
  {
  }

  /** A flow command counts as handled even when the module cannot start an
      interactive flow; then no record is created and nothing is sent. */
  lemma StartWithoutCapability(env: Env, capable: set<Flow>, w: World, m: Incoming, f: Flow)
    requires RouteOf(w, m) == Cmd(Start(f)) && f !in capable
    ensures HandlePayloadSpec(env, capable, w, m) == Answer(Outcome(w, true), true)
  {
    assert HandlePayloadSpec(env, capable, w, m) == DispatchSpec(env, capable, w, m, Cmd(Start(f)));
    assert StartFlowSpec(env, capable, w, f, m.from, m.business) == Outcome(w, true);
  }

  /** `menu` and `help` drop the sender's record before replying, and neither throws. */
  lemma MenuAndHelpReset(env: Env, capable: set<Flow>, w: World, m: Incoming)
    requires RouteOf(w, m) == Cmd(Menu) || RouteOf(w, m) == Cmd(Help)
    ensures var a := HandlePayloadSpec(env, capable, w, m);
            a.handled && a.outcome.ok && a.outcome.world.states == w.states - {m.from}
  {
    var r := RouteOf(w, m);
    assert HandlePayloadSpec(env, capable, w, m) == DispatchSpec(env, capable, w, m, r);
    if r == Cmd(Menu) {
      assert HandlePayloadSpec(env, capable, w, m).outcome
          == SendMenuSpec(env, World(w.states - {m.from}, w.log), m.from, m.business);
    } else {
      assert HandlePayloadSpec(env, capable, w, m).outcome
          == SendHelpSpec(env, World(w.states - {m.from}, w.log), m.from, m.business);
    }
  }

  /** Without an interactive send the menu goes out as the text menu. */
  lemma MenuFallsBackToText(env: Env, w: World, to: string, b: Option<BusinessRef>)
    requires !env.interactive
    ensures SendMenuSpec(env, w, to, b)
            == Outcome(World(w.states, w.log + [Entry(Text(to, FallbackMenu, ContextBusinessId(b)), env.credentials)]), true)
  {
  }

  /** A started flow stores `business?.id || null` in the record, with the
      flow, no data, and the module's first step once the prompt is out. */
  lemma StartStoresBusiness(env: Env, capable: set<Flow>, w: World, f: Flow, to: string, b: Option<BusinessRef>)
    requires f in capable
    ensures var o := StartFlowSpec(env, capable, w, f, to, b);
            to in o.world.states
            && o.world.states[to].flow == Some(Keyword(f))
            && o.world.states[to].businessId == StoredBusinessId(b)
            && o.world.states[to].data == map[]
            && (o.ok ==> o.world.states[to].step == FlowStart(f).nextStep)
            && o.world.states - {to} == w.states - {to}
  {
    var states := GetStateSpec(w.states, to);
    var st := states[to].(flow := Some(Keyword(f)), step := None, data := map[], businessId := StoredBusinessId(b));
    assert states - {to} == w.states - {to};
    assert states[to := st] - {to} == w.states - {to};
  }

  /** Flow replies carry the business id stored in the record, not the
      context's. */
  lemma RepliesUseStoredBusiness(env: Env, w: World, to: string, b: Option<BusinessRef>, r: Response)
    requires to in w.states && r.buttons.None?
    ensures ModuleResponseSpec(env, w, to, b, r).world.log[..|w.log| + 1]
            == w.log + [Entry(Text(to, r.message, w.states[to].businessId), env.credentials)]
  {
  }

  /** A done response sends the reply with the session's business id, then
      drops the record, then sends the menu with the context's. */
  lemma DoneDropsRecord(env: Env, w: World, to: string, b: Option<BusinessRef>, r: Response)
    requires to in w.states && r.done && r.buttons.None?
    ensures var o := ModuleResponseSpec(env, w, to, b, r);
            var reply := Entry(Text(to, r.message, w.states[to].businessId), env.credentials);
            o.ok && to !in o.world.states && o.world.states == w.states - {to}
            && o == SendMenuSpec(env, World(w.states - {to}, w.log + [reply]), to, b)
            && o.world.log[..|w.log| + 1] == w.log + [reply]
            && |o.world.log| == |w.log| + 2
  {
  }

  /** The router process of the older generation. */
  class Router {
    var userStates: map<string, Session>
    const outbox: Outbox
    /** The flow modules exporting `startInteractiveFlow` and
        `handleInteractiveStep`; the shipped modules export neither. */
    const capable: set<Flow>

    ghost predicate Valid()
      reads this
    {
      forall a, b | a in userStates && b in userStates && a != b :: userStates[a] != userStates[b]
    }

    function Snapshot(): map<string, SessionState>
      reads this, userStates.Values
    {
      map k | k in userStates :: userStates[k].State()
    }

    function Model(): World
      reads this, userStates.Values, outbox
    {
      World(Snapshot(), outbox.log)
    }

    constructor (outbox: Outbox, capable: set<Flow>)
      ensures Valid() && this.outbox == outbox && this.capable == capable && Snapshot() == map[]
    {
      this.outbox := outbox;
      this.capable := capable;
      userStates := map[];
    }

    method GetState(id: string) returns (s: Session)
      requires Valid()
      modifies this`userStates
      ensures Valid() && id in userStates && s == userStates[id]
      ensures Snapshot() == GetStateSpec(old(Snapshot()), id)
      ensures userStates.Values <= old(userStates.Values) + {s}
      ensures id in old(userStates) ==> s == old(userStates[id])
      ensures id !in old(userStates) ==> fresh(s)
    {
      if id !in userStates {
        var blank := new Session();
        userStates := userStates[id := blank];
      }
      s := userStates[id];
    }

    method ResetState(id: string)
      requires Valid()
      modifies this`userStates
      ensures Valid() && Snapshot() == old(Snapshot()) - {id}
      ensures userStates.Values <= old(userStates.Values)
    {
      userStates := userStates - {id};
    }

    method SendMenu(to: string, b: Option<BusinessRef>)
      modifies outbox`log
      ensures Outcome(Model(), true) == SendMenuSpec(outbox.env, old(Model()), to, b)
    {
      var ok := outbox.SendInteractive(to, MenuPrompt, MenuButtons, ContextBusinessId(b));
      if !ok {
        var _ := outbox.SendWhatsAppMessage(to, FallbackMenu, ContextBusinessId(b));
      }
    }

    method SendHelp(to: string, b: Option<BusinessRef>)
      modifies outbox`log
      ensures Outcome(Model(), true) == SendHelpSpec(outbox.env, old(Model()), to, b)
    {
      var text := HelpText(BusinessName(b));
      var _ := outbox.SendWhatsAppMessage(to, text, ContextBusinessId(b));
    }

    method HandleUnknown(to: string, b: Option<BusinessRef>)
      modifies outbox`log
      ensures Outcome(Model(), true) == UnknownSpec(outbox.env, old(Model()), to, b)
    {
      var _ := outbox.SendWhatsAppMessage(to, UnknownText, ContextBusinessId(b));
      SendMenu(to, b);
    }

    method Deliver(to: string, bid: Option<int>, response: Response) returns (ok: bool)
      modifies outbox`log
      ensures var d := DeliverSpec(outbox.env, to, bid, response);
              outbox.log == old(outbox.log) + d.entries && ok == d.ok
    {
      if response.buttons.Some? {
        ok := outbox.SendInteractive(to, response.message, response.buttons.value, bid);
      } else {
        var _ := outbox.SendWhatsAppMessage(to, response.message, bid);
        ok := true;
      }
    }

    /** Moves the sender's record to `step`. */
    method MoveStep(to: string, state: Session, step: Option<string>)
      requires Valid() && to in userStates && userStates[to] == state
      modifies state`step
      ensures Valid() && to in old(Snapshot())
      ensures Snapshot() == old(Snapshot())[to := old(Snapshot())[to].(step := step)]
    {
      state.step := step;
      assert Snapshot() == old(Snapshot())[to := old(Snapshot())[to].(step := step)];
    }

    method HandleModuleResponse(to: string, b: Option<BusinessRef>, state: Session, response: Response)
      returns (ok: bool)
      requires Valid() && to in userStates && userStates[to] == state
      modifies this`userStates, outbox`log, state`step
      ensures Valid() && userStates.Values <= old(userStates.Values)
      ensures to in old(Snapshot())
      ensures Outcome(Model(), ok) == ModuleResponseSpec(outbox.env, old(Model()), to, b, response)
    {
      ok := Deliver(to, state.businessId, response);
      if !ok {
        return;
      }
      if response.nextStep.Some? {
        MoveStep(to, state, response.nextStep);
      }
      if response.done {
        ResetState(to);
        SendMenu(to, b);
      }
    }

    /** Puts the sender's record at the start of flow `f`, tagged with the
        context's business. */
    method Enter(f: Flow, to: string, b: Option<BusinessRef>, state: Session)
      requires Valid() && to in userStates && userStates[to] == state
      modifies state`flow, state`data, state`step, state`businessId
      ensures Valid() && to in old(Snapshot())
      ensures Snapshot() == old(Snapshot())[to := old(Snapshot())[to].(flow := Some(Keyword(f)), step := None,
                                                                       data := map[], businessId := StoredBusinessId(b))]
    {
      state.flow := Some(Keyword(f));
      state.step := None;
      state.data := map[];
      state.businessId := StoredBusinessId(b);
      assert Snapshot() == old(Snapshot())[to := old(Snapshot())[to].(flow := Some(Keyword(f)), step := None,
                                                                      data := map[], businessId := StoredBusinessId(b))];
    }

    /** Runs flow `f`'s step on the sender's record. */
    method Advance(f: Flow, to: string, state: Session, input: string) returns (response: Response)
      requires Valid() && to in userStates && userStates[to] == state
      modifies state`step, state`data
      ensures Valid() && to in old(Snapshot())
      ensures var o := FlowStep(f, input, old(state.step), old(state.data));
              response == o.response
              && Snapshot() == old(Snapshot())[to := old(Snapshot())[to].(step := o.step, data := o.data)]
    {
      response := RunStep(f, input, state);
      assert Snapshot() == old(Snapshot())[to := old(Snapshot())[to].(step := state.step, data := state.data)];
    }

    /** `startFlow`; `started` is its return value. */
    method StartFlow(f: Flow, to: string, b: Option<BusinessRef>) returns (ok: bool, started: bool)
      requires Valid()
      modifies this`userStates, outbox`log, userStates.Values
      ensures Valid()
      ensures started == (f in capable)
      ensures Outcome(Model(), ok) == StartFlowSpec(outbox.env, capable, old(Model()), f, to, b)
    {
      if f !in capable {
        return true, false;
      }
      var state := GetState(to);
      Enter(f, to, b, state);
      var response := if f == Barber then BarberFlow.StartFlow() else CarwashFlow.StartFlow();
      ok := HandleModuleResponse(to, b, state, response);
      started := true;
    }

    method ContinueFlow(f: Flow, to: string, b: Option<BusinessRef>, input: string) returns (ok: bool)
      requires Valid()
      modifies this`userStates, outbox`log, userStates.Values
      ensures Valid()
      ensures Outcome(Model(), ok) == ContinueSpec(outbox.env, capable, old(Model()), f, to, b, input)
    {
      var state := GetState(to);
      if f !in capable {
        return false;
      }
      var response := Advance(f, to, state, input);
      ok := HandleModuleResponse(to, b, state, response);
    }

    method RouteByCommand(c: Command, to: string, b: Option<BusinessRef>) returns (ok: bool)
      requires Valid()
      modifies this`userStates, outbox`log, userStates.Values
      ensures Valid()
      ensures Outcome(Model(), ok) == RouteSpec(outbox.env, capable, old(Model()), c, to, b)
    {
      ghost var w := Model();
      match c
      case Menu =>
        ResetState(to);
        assert RouteSpec(outbox.env, capable, w, c, to, b) == SendMenuSpec(outbox.env, Model(), to, b);
        SendMenu(to, b);
        ok := true;
      case Help =>
        ResetState(to);
        assert RouteSpec(outbox.env, capable, w, c, to, b) == SendHelpSpec(outbox.env, Model(), to, b);
        SendHelp(to, b);
        ok := true;
      case Start(f) =>
        var started;
        ok, started := StartFlow(f, to, b);
    }

    /** The flow the sender's record is in, read off the session object. */
    method SenderFlow(from: string) returns (f: Option<Flow>)
      ensures f == ActiveFlow(Snapshot(), from)
    {
      if from !in userStates {
        return None;
      }
      var state := userStates[from];
      assert Snapshot()[from] == state.State();
      if state.flow == Some(BarberFlow.Keyword) {
        return Some(Barber);
      }
      if state.flow == Some(CarwashFlow.Keyword) {
        return Some(Carwash);
      }
      return None;
    }

    /** The branch tests of `handleIncomingPayload`, in order: empty input,
        a global command, the sender's active flow, nothing. */
    method RouteMessage(m: Incoming) returns (route: Route)
      ensures route == RouteOf(Model(), m)
    {
      var normalized := ToLower(Payload(m.buttonId, m.text));
      if normalized == "" {
        return EmptyInput;
      }
      var command := CommandOf(SanitizeCommand(normalized));
      if command.Some? {
        return Cmd(command.value);
      }
      var active := SenderFlow(m.from);
      if active.Some? {
        return Continue(active.value);
      }
      return NoMatch;
    }

    /** `handleIncomingPayload`: `ok` is `false` when it rejects, `handled`
        is the value it resolves with. */
    method HandleIncomingPayload(m: Incoming) returns (ok: bool, handled: bool)
      requires Valid()
      modifies this`userStates, outbox`log, userStates.Values
      ensures Valid()
      ensures Answer(Outcome(Model(), ok), handled) == HandlePayloadSpec(outbox.env, capable, old(Model()), m)
    {
      var route := RouteMessage(m);
      match route
      case EmptyInput =>
        HandleUnknown(m.from, m.business);
        ok, handled := true, true;
      case Cmd(c) =>
        ok := RouteByCommand(c, m.from, m.business);
        handled := true;
      case Continue(f) =>
        ok := ContinueFlow(f, m.from, m.business, Payload(m.buttonId, m.text));
        handled := true;
      case NoMatch =>
        ok, handled := true, false;
    }
  }
}
