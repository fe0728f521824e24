/** What the two router generations share: the flow modules they route to,
    the global commands and how a button id or typed text is read as one,
    and the menu they offer. */
module RouterCommon {
  import opened Wrappers
  import opened Text
  import opened Outbound
  import opened Sessions
  import BarberFlow
  import CarwashFlow

  const MenuPrompt := "Choose a CSonic service to continue:"
  const MenuButtons := [Button("cmd_barber", "Barber"), Button("cmd_carwash", "Car Wash"), Button("cmd_help", "Help")]
  const UnknownText := "I did not catch that. Type \"menu\" to see available services or \"help\" for assistance."

  /** The two interactive flow modules. */
  datatype Flow = Barber | Carwash

  function Keyword(f: Flow): string {
    match f
    case Barber => BarberFlow.Keyword
    case Carwash => CarwashFlow.Keyword
  }

  function FlowStart(f: Flow): Response {
    match f
    case Barber => BarberFlow.StartFlow()
    case Carwash => CarwashFlow.StartFlow()
  }

  function FlowStep(f: Flow, input: string, step: Option<string>, data: map<string, string>): StepOutcome {
    match f
    case Barber => BarberFlow.Step(input, step, data)
    case Carwash => CarwashFlow.Step(input, step, data)
  }

  /** The keys of `COMMANDS`. */
  datatype Command = Menu | Help | Start(flow: Flow)

  function CommandName(c: Command): string {
    match c
    case Menu => "menu"
    case Help => "help"
    case Start(f) => Keyword(f)
  }

  /** The `switch` of `routeByCommand`: which command a candidate names. */
  function CommandOf(candidate: string): (r: Option<Command>)
    ensures r.Some? ==> CommandName(r.value) == candidate
    ensures r.None? ==> forall c: Command :: CommandName(c) != candidate
  {
    if candidate == "menu" then Some(Menu)
    else if candidate == "help" then Some(Help)
    else if candidate == "barber" then Some(Start(Barber))
    else if candidate == "carwash" then Some(Start(Carwash))
    else None
  }

  /** `(buttonId || text || '').trim()`: a non-empty button id wins over the text. */
  function Payload(buttonId: Option<string>, text: string): (r: string)
    ensures buttonId.Some? && buttonId.value != "" ==> r == Trim(buttonId.value)
    ensures (buttonId.None? || buttonId.value == "") ==> r == Trim(text)
  {
    Trim(Or(buttonId.GetOr(""), text))
  }

  /** `value.replace(/^cmd_(menu_)?/, '')`: the greedy optional group takes
      `menu_` whenever it follows `cmd_`. */
  function SanitizeCommand(v: string): (r: string)
    ensures StartsWith(v, "cmd_menu_") ==> v == "cmd_menu_" + r
    ensures !StartsWith(v, "cmd_menu_") && StartsWith(v, "cmd_") ==> v == "cmd_" + r
    ensures !StartsWith(v, "cmd_") ==> r == v
  {
    if StartsWith(v, "cmd_menu_") then v[9..]
    else if StartsWith(v, "cmd_") then v[4..]
    else v
  }

  /** A lower-cased candidate names command `c` exactly when it is `c`,
      `cmd_c` or `cmd_menu_c`. */
  lemma CommandForms(v: string, c: Command)
    ensures CommandOf(SanitizeCommand(v)) == Some(c) <==>
            v == CommandName(c) || v == "cmd_" + CommandName(c) || v == "cmd_menu_" + CommandName(c)
  {
    var n := CommandName(c);
    assert n[0] != 'c' || n[1] != 'm';
    assert !StartsWith(n, "cmd_");
    assert ("cmd_" + n)[..4] == "cmd_";
    assert ("cmd_" + n)[4..] == n;
    assert ("cmd_menu_" + n)[..9] == "cmd_menu_";
    assert ("cmd_menu_" + n)[..4] == "cmd_";
    assert ("cmd_menu_" + n)[9..] == n;
    if |"cmd_" + n| >= 9 {
      assert ("cmd_" + n)[4..9] == n[..5];
      assert !StartsWith("cmd_" + n, "cmd_menu_");
    }
    if CommandOf(SanitizeCommand(v)) == Some(c) {
      assert SanitizeCommand(v) == n;
    }
  }

  /** A button press `CMD_MENU_BARBER` starts the barber flow. */
  lemma ButtonIdExample()
    ensures CommandOf(SanitizeCommand(ToLower("CMD_MENU_BARBER"))) == Some(Start(Barber))
  {
    var s := "CMD_MENU_BARBER";
    var l := "cmd_menu_barber";
    assert ToLower(s) == l by {
      forall i | 0 <= i < 15 ensures ToLower(s)[i] == l[i] {
        assert ToLower(s)[i] == LowerChar(s[i]);
      }
    }
    assert SanitizeCommand(l) == "barber" by {
      assert l[..9] == "cmd_menu_";
      assert l[9..] == "barber";
    }
  }

  /** `getState`: a sender without a record gets a blank one. */
  function GetStateSpec(states: map<string, SessionState>, id: string): (r: map<string, SessionState>)
    ensures id in r && r.Keys == states.Keys + {id}
    ensures id in states ==> r == states
    ensures id !in states ==> r[id] == Blank
  {
    if id in states then states else states[id := Blank]
  }

  /** The flow a sender's record is in, when it is one of the two modules. */
  function ActiveFlow(states: map<string, SessionState>, from: string): Option<Flow> {
    if from in states && states[from].flow == Some(BarberFlow.Keyword) then Some(Barber)
    else if from in states && states[from].flow == Some(CarwashFlow.Keyword) then Some(Carwash)
    else None
  }

  /** Which branch of the message handler a message takes, in the order the
      branches are tried: empty input, a global command, the sender's active
      flow, nothing. `normalized` is the lower-cased payload. */
  datatype Route = EmptyInput | Cmd(c: Command) | Continue(f: Flow) | NoMatch

  function Classify(states: map<string, SessionState>, from: string, normalized: string): (r: Route)
    ensures r == EmptyInput <==> normalized == ""
    ensures normalized != "" ==> (r.Cmd? <==> CommandOf(SanitizeCommand(normalized)).Some?)
    ensures r.Cmd? ==> Some(r.c) == CommandOf(SanitizeCommand(normalized))
    ensures r.Continue? <==> normalized != "" && CommandOf(SanitizeCommand(normalized)).None?
                             && ActiveFlow(states, from).Some?
    ensures r.Continue? ==> ActiveFlow(states, from) == Some(r.f)
  {
    if normalized == "" then EmptyInput
    else
      match CommandOf(SanitizeCommand(normalized))
      case Some(c) => Cmd(c)
      case None =>
        match ActiveFlow(states, from)
        case Some(f) => Continue(f)
        case None => NoMatch
  }

  /** The module's `handleStep` on one record. */
  method RunStep(f: Flow, input: string, state: Session) returns (r: Response)
    modifies state`step, state`data
    ensures FlowStep(f, input, old(state.step), old(state.data)) == StepOutcome(state.step, state.data, r)
  {
    if f == Barber {
      r := BarberFlow.HandleStep(input, state);
    } else {
      r := CarwashFlow.HandleStep(input, state);
    }
  }
}
