/** The command router of the newer bot generation: one session record per
    sender in a process-wide map, global commands first, then the sender's
    active flow, then the "did not catch that" reply. */
module ProjectRouter {
  import opened Wrappers
  import opened Text
  import opened Outbound
  import opened Sessions
  import opened RouterCommon
  import BarberFlow
  import CarwashFlow

  const HelpText := "CSonic Bot Commands:\n- menu: view available services\n- barber: book a barber appointment\n- carwash: request a car wash\n- help: see this message again"

  /** The message the webhook controller hands over: `{ from, text, buttonId }`. */
  datatype Incoming = Incoming(from: string, text: string, buttonId: Option<string>)

  function InputPayload(m: Incoming): string {
    Payload(m.buttonId, m.text)
  }

  /** `parseCommand`: trimmed and lower-cased. */
  function ParseCommand(input: string): (r: string)
    ensures |r| <= |input| && IsLowerAscii(r)
    ensures r == [] <==> AllSpace(input)
  {
    ToLower(Trim(input))
  }

  /** The router's whole state: the session map's records and the send log. */
  datatype World = World(states: map<string, SessionState>, log: seq<Entry>)

  /** Where handling stands: the state reached, and whether the handler
      returned normally (`false`: an exception propagated out of it). */
  datatype Outcome = Outcome(world: World, ok: bool)

  function Emit(w: World, s: Sent): World {
    World(w.states, w.log + s.entries)
  }

  function SendMenuSpec(env: Env, w: World, to: string): Outcome {
    var s := PostInteractive(env, to, MenuPrompt, MenuButtons, None);
    Outcome(Emit(w, s), s.ok)
  }

  function SendHelpSpec(env: Env, w: World, to: string): Outcome {
    var s := PostText(env, to, HelpText);
    Outcome(Emit(w, s), s.ok)
  }

  /** `handleUnknown`: the text reply, then the menu. */
  function UnknownSpec(env: Env, w: World, to: string): Outcome {
    var s := PostText(env, to, UnknownText);
    if !s.ok then Outcome(Emit(w, s), false) else SendMenuSpec(env, Emit(w, s), to)
  }

  /** `handleModuleResponse`: send the response (as buttons when it has
      any), move the step when it names one, and on done drop the session
      and send the menu. */
  function ModuleResponseSpec(env: Env, w: World, to: string, r: Response): Outcome
    requires to in w.states
  {
    var s := DeliverSpec(env, to, r);
    var w1 := Emit(w, s);
    if !s.ok then Outcome(w1, false)
    else
      var w2 := if r.nextStep.Some? then World(w1.states[to := w1.states[to].(step := r.nextStep)], w1.log)
                else w1;
      if r.done then SendMenuSpec(env, World(w2.states - {to}, w2.log), to) else Outcome(w2, true)
  }

  /** The send of a module's response: as buttons when it has any. */
  function DeliverSpec(env: Env, to: string, r: Response): Sent {
    if r.buttons.Some? then PostInteractive(env, to, r.message, r.buttons.value, None)
    else PostText(env, to, r.message)
  }

  /** `startFlow`: the sender's record gets the module's flow, empty data and
      no step, then the module's opening response is handled. */
  function StartFlowSpec(env: Env, w: World, f: Flow, to: string): Outcome {
    var states := GetStateSpec(w.states, to);
    var st := states[to].(flow := Some(Keyword(f)), data := map[], step := None);
    ModuleResponseSpec(env, World(states[to := st], w.log), to, FlowStart(f))
  }

  /** `continueFlow`: the module's step on the sender's record, then its response. */
  function ContinueSpec(env: Env, w: World, f: Flow, to: string, input: string): Outcome {
    var states := GetStateSpec(w.states, to);
    var o := FlowStep(f, input, states[to].step, states[to].data);
    ModuleResponseSpec(env, World(states[to := states[to].(step := o.step, data := o.data)], w.log),
                       to, o.response)
  }

  function RouteSpec(env: Env, w: World, c: Command, to: string): Outcome {
    match c
    case Menu => SendMenuSpec(env, World(w.states - {to}, w.log), to)
    case Help => SendHelpSpec(env, World(w.states - {to}, w.log), to)
    case Start(f) => StartFlowSpec(env, w, f, to)
  }

  function DispatchSpec(env: Env, w: World, from: string, payload: string, route: Route): Outcome {
    match route
    case EmptyInput => UnknownSpec(env, w, from)
    case Cmd(c) => RouteSpec(env, w, c, from)
    case Continue(f) => ContinueSpec(env, w, f, from, payload)
    case NoMatch => UnknownSpec(env, w, from)
  }

  /** `handleMessage` (and `handleIncomingPayload`, which rethrows): empty
      input, then a global command, then the active flow, then the unknown reply. */
  function HandleMessageSpec(env: Env, w: World, m: Incoming): Outcome {
    var payload := InputPayload(m);
    DispatchSpec(env, w, m.from, payload, Classify(w.states, m.from, ParseCommand(payload)))
  }

  /** Every record in the map belongs to a flow. */
  predicate AllInFlow(states: map<string, SessionState>) {
    forall k | k in states :: states[k].flow.Some?
  }

  /** The branch a message takes against the current records. */
  function RouteOf(w: World, m: Incoming): Route {
    Classify(w.states, m.from, ParseCommand(InputPayload(m)))
  }

  /** Empty or white-space-only input gets the unknown reply and then the
      menu, and creates no record; a failed send ends the handling. */
  lemma EmptyInputIsUnknown(env: Env, w: World, m: Incoming)
    requires InputPayload(m) == ""
    ensures var o := HandleMessageSpec(env, w, m);
            o.world.states == w.states
            && (!env.credentials ==> o.world.log == w.log && !o.ok)
            && (env.credentials && !env.interactive ==>
                  o.world.log == w.log + [Entry(Text(m.from, UnknownText, None), true)] && !o.ok)
            && (env.credentials && env.interactive ==>
                  o.world.log == w.log + [Entry(Text(m.from, UnknownText, None), true),
                                          Entry(Interactive(m.from, MenuPrompt, MenuButtons, None), true)]
                  && o.ok)
  {
    assert ParseCommand(InputPayload(m)) == "";
    assert RouteOf(w, m) == EmptyInput;
    assert HandleMessageSpec(env, w, m) == UnknownSpec(env, w, m.from);
    UnknownSends(env, w, m.from);
  }

  /** The unknown reply: the text, then the menu, each only while sends
      succeed; no record changes. */
  lemma UnknownSends(env: Env, w: World, to: string)
    ensures var o := UnknownSpec(env, w, to);
            o.world.states == w.states
            && (!env.credentials ==> o.world.log == w.log && !o.ok)
            && (env.credentials && !env.interactive ==>
                  o.world.log == w.log + [Entry(Text(to, UnknownText, None), true)] && !o.ok)
            && (env.credentials && env.interactive ==>
                  o.world.log == w.log + [Entry(Text(to, UnknownText, None), true),
                                          Entry(Interactive(to, MenuPrompt, MenuButtons, None), true)]
                  && o.ok)
  {
  }

  /** `menu` and `help` drop the sender's record, whatever flow or step it
      was in, and touch no other record. */
  lemma MenuAndHelpReset(env: Env, w: World, m: Incoming)
    requires RouteOf(w, m) == Cmd(Menu) || RouteOf(w, m) == Cmd(Help)
    ensures HandleMessageSpec(env, w, m).world.states == w.states - {m.from}
  {
    HandleIsDispatch(env, w, m);
    CommandResets(env, w, m.from, InputPayload(m), RouteOf(w, m).c);
  }

  /** The `menu` and `help` branches, whatever the message. */
  lemma CommandResets(env: Env, w: World, from: string, payload: string, c: Command)
    requires c == Menu || c == Help
    ensures DispatchSpec(env, w, from, payload, Cmd(c)).world.states == w.states - {from}
  {
  }

  /** Whether a flow's opening response got sent: the barber prompt is text,
      the car-wash prompt carries buttons. */
  predicate OpeningSent(env: Env, f: Flow) {
    env.credentials && (f == Barber || env.interactive)
  }

  /** `startFlow` gives the record the flow, empty data, and the module's
      first step once its opening prompt is sent (no step when the send
      threw); no other record changes. */
  lemma StartFlowSetsRecord(env: Env, w: World, f: Flow, to: string)
    ensures var o := StartFlowSpec(env, w, f, to);
            to in o.world.states
            && o.world.states[to].flow == Some(Keyword(f))
            && o.world.states[to].data == map[]
            && o.world.states[to].step == (if OpeningSent(env, f) then FlowStart(f).nextStep else None)
            && o.world.states - {to} == w.states - {to}
            && o.ok == OpeningSent(env, f)
  {
    var states := GetStateSpec(w.states, to);
    var st := states[to].(flow := Some(Keyword(f)), data := map[], step := None);
    var w1 := World(states[to := st], w.log);
    assert states - {to} == w.states - {to};
    assert w1.states - {to} == w.states - {to};
    ModuleResponseFrame(env, w1, to, FlowStart(f));
  }

  /** The `barber` and `carwash` commands start their flow. */
  lemma StartCommandSetsRecord(env: Env, w: World, m: Incoming, f: Flow)
    requires RouteOf(w, m) == Cmd(Start(f))
    ensures HandleMessageSpec(env, w, m) == StartFlowSpec(env, w, f, m.from)
  {
    HandleIsDispatch(env, w, m);
    assert DispatchSpec(env, w, m.from, InputPayload(m), Cmd(Start(f))) == RouteSpec(env, w, Start(f), m.from);
  }

  /** Handling a message is dispatching it on its route. */
  lemma HandleIsDispatch(env: Env, w: World, m: Incoming)
    ensures HandleMessageSpec(env, w, m) == DispatchSpec(env, w, m.from, InputPayload(m), RouteOf(w, m))
  {
  }

  /** The response handler changes only the one record: it moves the step,
      or drops the record on done. */
  lemma ModuleResponseFrame(env: Env, w: World, to: string, r: Response)
    requires to in w.states
    ensures var o := ModuleResponseSpec(env, w, to, r);
            o.world.states - {to} == w.states - {to}
            && (to in o.world.states ==> o.world.states[to] == w.states[to].(step := o.world.states[to].step))
            && (to !in o.world.states ==> r.done)
  {
  }

  /** A done response drops the sender's record and then sends the menu. */
  lemma DoneDropsRecord(env: Env, w: World, to: string, r: Response)
    requires to in w.states && r.done && r.buttons.None? && env.credentials
    ensures var o := ModuleResponseSpec(env, w, to, r);
            to !in o.world.states
            && (env.interactive ==>
                  o.ok && o.world.log == w.log + [Entry(Text(to, r.message, None), true),
                                                  Entry(Interactive(to, MenuPrompt, MenuButtons, None), true)])
            && (!env.interactive ==> !o.ok && o.world.log == w.log + [Entry(Text(to, r.message, None), true)])
  {
  }

  /** A flow answer is handed to the module trimmed but with its case kept:
      at `collectDate` the barber flow stores it as the date. */
  lemma FlowInputKeepsCase(env: Env, w: World, m: Incoming)
    requires env.credentials && RouteOf(w, m) == Continue(Barber)
    requires w.states[m.from].step == Some("collectDate")
    ensures var o := HandleMessageSpec(env, w, m);
            o.ok && m.from in o.world.states && o.world.states[m.from].step == Some("collectTime")
            && o.world.states[m.from].data == w.states[m.from].data["date" := InputPayload(m)]
  {
    var p := InputPayload(m);
    var st := w.states[m.from];
    assert HandleMessageSpec(env, w, m) == DispatchSpec(env, w, m.from, p, Continue(Barber));
    var o := BarberFlow.Step(p, st.step, st.data);
    assert o.step == Some("collectTime") && o.data == st.data["date" := p];
    var w1 := World(w.states[m.from := st.(step := o.step, data := o.data)], w.log);
    assert HandleMessageSpec(env, w, m) == ModuleResponseSpec(env, w1, m.from, o.response);
  }

  /** Input that is neither a command nor the answer of an active flow gets
      the unknown reply and changes no record. */
  lemma NoFlowIsUnknown(env: Env, w: World, m: Incoming)
    requires RouteOf(w, m) == NoMatch
    ensures HandleMessageSpec(env, w, m) == UnknownSpec(env, w, m.from)
    ensures HandleMessageSpec(env, w, m).world.states == w.states
  {
  }

  /** Every record the router keeps belongs to a flow, after any message. */
  lemma HandleKeepsFlows(env: Env, w: World, m: Incoming)
    requires AllInFlow(w.states)
    ensures AllInFlow(HandleMessageSpec(env, w, m).world.states)
  {
    var r := RouteOf(w, m);
    assert HandleMessageSpec(env, w, m) == DispatchSpec(env, w, m.from, InputPayload(m), r);
    DispatchKeepsFlows(env, w, m.from, InputPayload(m), r);
  }

  lemma DispatchKeepsFlows(env: Env, w: World, from: string, payload: string, r: Route)
    requires AllInFlow(w.states)
    requires r.Continue? ==> ActiveFlow(w.states, from) == Some(r.f)
    ensures AllInFlow(DispatchSpec(env, w, from, payload, r).world.states)
  {
    match r
    case EmptyInput =>
    case NoMatch =>
    case Cmd(c) =>
      if c.Start? {
        StartFlowSetsRecord(env, w, c.flow, from);
      }
    case Continue(f) =>
      var st := w.states[from];
      var o := FlowStep(f, payload, st.step, st.data);
      var w1 := World(w.states[from := st.(step := o.step, data := o.data)], w.log);
      ModuleResponseFrame(env, w1, from, o.response);
      assert DispatchSpec(env, w, from, payload, r) == ModuleResponseSpec(env, w1, from, o.response);
  }

  /** As shipped, the project's WhatsApp service has no interactive send, so
      `menu` throws and posts nothing, even with credentials. */
  lemma MenuThrowsAsShipped(w: World, m: Incoming)
    requires RouteOf(w, m) == Cmd(Menu)
    ensures var o := HandleMessageSpec(Env(true, false), w, m);
            !o.ok && o.world.log == w.log
  {
  }

  /** With an interactive send, `menu` posts the three menu buttons. */
  lemma MenuSentWithInteractiveSend(w: World, m: Incoming)
    requires RouteOf(w, m) == Cmd(Menu)
    ensures var o := HandleMessageSpec(Env(true, true), w, m);
            o.ok && o.world.log == w.log + [Entry(Interactive(m.from, MenuPrompt, MenuButtons, None), true)]
  {
  }

  /** The router process: the `userStates` map of session records, and the
      send log it writes to. */
  class Router {
    var userStates: map<string, Session>
    const outbox: Outbox

    /** Each sender has a record of their own. */
    ghost predicate Valid()
      reads this
    {
      forall a, b | a in userStates && b in userStates && a != b :: userStates[a] != userStates[b]
    }

    function Snapshot(): map<string, SessionState>
      reads this, userStates.Values
    {
      map k | k in userStates :: userStates[k].State()
    }

    function Model(): World
      reads this, userStates.Values, outbox
    {
      World(Snapshot(), outbox.log)
    }

    constructor (outbox: Outbox)
      ensures Valid() && this.outbox == outbox && Snapshot() == map[]
    {
      this.outbox := outbox;
      userStates := map[];
    }

    method GetState(id: string) returns (s: Session)
      requires Valid()
      modifies this`userStates
      ensures Valid() && id in userStates && s == userStates[id]
      ensures Snapshot() == GetStateSpec(old(Snapshot()), id)
      ensures userStates.Values <= old(userStates.Values) + {s}
      ensures id in old(userStates) ==> s == old(userStates[id])
      ensures id !in old(userStates) ==> fresh(s)
    {
      if id !in userStates {
        var blank := new Session();
        userStates := userStates[id := blank];
      }
      s := userStates[id];
    }

    method ResetState(id: string)
      requires Valid()
      modifies this`userStates
      ensures Valid() && Snapshot() == old(Snapshot()) - {id}
      ensures userStates.Values <= old(userStates.Values)
    {
      userStates := userStates - {id};
    }

    method SendHelp(to: string) returns (ok: bool)
      modifies outbox`log
      ensures Outcome(Model(), ok) == SendHelpSpec(outbox.env, old(Model()), to)
    {
      ok := outbox.SendMessage(to, HelpText);
    }

    method SendMenu(to: string) returns (ok: bool)
      modifies outbox`log
      ensures Outcome(Model(), ok) == SendMenuSpec(outbox.env, old(Model()), to)
    {
      ok := outbox.SendInteractive(to, MenuPrompt, MenuButtons, None);
    }

    method HandleUnknown(to: string) returns (ok: bool)
      modifies outbox`log
      ensures Outcome(Model(), ok) == UnknownSpec(outbox.env, old(Model()), to)
    {
      ok := outbox.SendMessage(to, UnknownText);
      if ok {
        ok := SendMenu(to);
      }
    }

    method Deliver(to: string, response: Response) returns (ok: bool)
      modifies outbox`log
      ensures var d := DeliverSpec(outbox.env, to, response);
              outbox.log == old(outbox.log) + d.entries && ok == d.ok
    {
      if response.buttons.Some? {
        ok := outbox.SendInteractive(to, response.message, response.buttons.value, None);
      } else {
        ok := outbox.SendMessage(to, response.message);
      }
    }

    /** Moves the sender's record to `step`. */
    method MoveStep(to: string, state: Session, step: Option<string>)
      requires Valid() && to in userStates && userStates[to] == state
      modifies state`step
      ensures Valid() && to in old(Snapshot())
      ensures Snapshot() == old(Snapshot())[to := old(Snapshot())[to].(step := step)]
    {
      state.step := step;
      assert Snapshot() == old(Snapshot())[to := old(Snapshot())[to].(step := step)];
    }

    method HandleModuleResponse(to: string, state: Session, response: Response) returns (ok: bool)
      requires Valid() && to in userStates && userStates[to] == state
      modifies this`userStates, outbox`log, state`step
      ensures Valid() && userStates.Values <= old(userStates.Values)
      ensures to in old(Snapshot())
      ensures Outcome(Model(), ok) == ModuleResponseSpec(outbox.env, old(Model()), to, response)
    {
      ok := Deliver(to, response);
      if !ok {
        return;
      }
      if response.nextStep.Some? {
        MoveStep(to, state, response.nextStep);
      }
      if response.done {
        ResetState(to);
        ok := SendMenu(to);
      }
    }

    /** Puts the sender's record at the start of flow `f`. */
    method Enter(f: Flow, to: string, state: Session)
      requires Valid() && to in userStates && userStates[to] == state
      modifies state`flow, state`data, state`step
      ensures Valid() && to in old(Snapshot())
      ensures Snapshot() == old(Snapshot())[to := old(Snapshot())[to].(flow := Some(Keyword(f)), data := map[], step := None)]
    {
      state.flow := Some(Keyword(f));
      state.data := map[];
      state.step := None;
      assert Snapshot() == old(Snapshot())[to := old(Snapshot())[to].(flow := Some(Keyword(f)), data := map[], step := None)];
    }

    /** Runs flow `f`'s step on the sender's record. */
    method Advance(f: Flow, to: string, state: Session, input: string) returns (response: Response)
      requires Valid() && to in userStates && userStates[to] == state
      modifies state`step, state`data
      ensures Valid() && to in old(Snapshot())
      ensures var o := FlowStep(f, input, old(state.step), old(state.data));
              response == o.response
              && Snapshot() == old(Snapshot())[to := old(Snapshot())[to].(step := o.step, data := o.data)]
    {
      response := RunStep(f, input, state);
      assert Snapshot() == old(Snapshot())[to := old(Snapshot())[to].(step := state.step, data := state.data)];
    }

    method StartFlow(f: Flow, to: string) returns (ok: bool)
      requires Valid()
      modifies this`userStates, outbox`log, userStates.Values
      ensures Valid()
      ensures Outcome(Model(), ok) == StartFlowSpec(outbox.env, old(Model()), f, to)
    {
      var state := GetState(to);
      Enter(f, to, state);
      var response := if f == Barber then BarberFlow.StartFlow() else CarwashFlow.StartFlow();
      ok := HandleModuleResponse(to, state, response);
    }

    method ContinueFlow(f: Flow, to: string, input: string) returns (ok: bool)
      requires Valid()
      modifies this`userStates, outbox`log, userStates.Values
      ensures Valid()
      ensures Outcome(Model(), ok) == ContinueSpec(outbox.env, old(Model()), f, to, input)
    {
      var state := GetState(to);
      var response := Advance(f, to, state, input);
      ok := HandleModuleResponse(to, state, response);
    }

    method RouteByCommand(c: Command, to: string) returns (ok: bool)
      requires Valid()
      modifies this`userStates, outbox`log, userStates.Values
      ensures Valid()
      ensures Outcome(Model(), ok) == RouteSpec(outbox.env, old(Model()), c, to)
    {
      match c
      case Menu =>
        ResetState(to);
        ok := SendMenu(to);
      case Help =>
        ResetState(to);
        ok := SendHelp(to);
      case Start(f) =>
        ok := StartFlow(f, to);
    }

    /** `handleMessage`/`handleIncomingPayload`; `ok` is `false` when the
        call rejects. */
    method HandleMessage(m: Incoming) returns (ok: bool)
      requires Valid()
      modifies this`userStates, outbox`log, userStates.Values
      ensures Valid()
      ensures Outcome(Model(), ok) == HandleMessageSpec(outbox.env, old(Model()), m)
    {
      var payload := Trim(Or(m.buttonId.GetOr(""), m.text));
      var normalized := ParseCommand(payload);
      var candidate := SanitizeCommand(normalized);
      if normalized == "" {
        ok := HandleUnknown(m.from);
        return;
      }
      var command := CommandOf(candidate);
      if command.Some? {
        ok := RouteByCommand(command.value, m.from);
        return;
      }
      if m.from in userStates && userStates[m.from].flow == Some(BarberFlow.Keyword) {
        ok := ContinueFlow(Barber, m.from, payload);
      } else if m.from in userStates && userStates[m.from].flow == Some(CarwashFlow.Keyword) {
        ok := ContinueFlow(Carwash, m.from, payload);
      } else {
        ok := HandleUnknown(m.from);
      }
    }
  }
}
