/** The interactive barber-booking flow: date, then time, then style, then a
    summary marked done. */
module BarberFlow {
  import opened Wrappers
  import opened Text
  import opened Sessions

  const Keyword := "barber"

  const StartPrompt := "💈 Barber bookings: please share your preferred date (YYYY-MM-DD). Reply \"menu\" to exit."
  const AskTime := "Great! What time works best for that day? (e.g. 14:30)"
  const AskStyle := "Got it. Any style preference? (fade, beard trim, etc.)"
  const Restart := "Let’s start again. What date suits you for the barber booking?"

  const SummaryHead := "✅ Booking request received!\n• Date: "
  const TimeLabel := "\n• Time: "
  const StyleLabel := "\n• Style: "
  const SummaryTail := "\n\nOur team will confirm shortly."

  /** The confirmation message that closes the flow. */
  function Summary(date: string, time: string, style: string): string {
    SummaryHead + date + TimeLabel + time + StyleLabel + style + SummaryTail
  }

  /** `startFlow`: the opening prompt; it asks the router to put the session
      on `collectDate`, with no buttons and not done. */
  function StartFlow(): (r: Response)
    ensures r.nextStep == Some("collectDate") && r.buttons.None? && !r.done
  {
    CreateResponse(StartPrompt, None, false, "collectDate")
  }

  /** `handleStep(input, state)` as a function of the step and data it finds.
      Only the last step answers done; no response names a next step, since
      the module moves the session by assigning `state.step` itself; every
      reply is plain text. */
  function Step(input: string, step: Option<string>, data: map<string, string>): (o: StepOutcome)
    ensures o.response.done <==> step == Some("collectStyle")
    ensures o.response.nextStep.None? && o.response.buttons.None?
    ensures o.step.Some?
  {
    if step == Some("collectDate") then
      StepOutcome(Some("collectTime"), data["date" := input], CreateResponse(AskTime, None, false, ""))
    else if step == Some("collectTime") then
      StepOutcome(Some("collectStyle"), data["time" := input], CreateResponse(AskStyle, None, false, ""))
    else if step == Some("collectStyle") then
      var d := data["style" := input];
      StepOutcome(step, d,
        CreateResponse(Summary(Field(d, "date"), Field(d, "time"), Field(d, "style")), None, true, ""))
    else
      StepOutcome(Some("collectDate"), map[], CreateResponse(Restart, None, false, ""))
  }

  /** `handleStep`: updates the session's step and data in place, and nothing else. */
  method HandleStep(input: string, state: Session) returns (r: Response)
    modifies state`step, state`data
    ensures Step(input, old(state.step), old(state.data)) == StepOutcome(state.step, state.data, r)
  {
    if state.step == Some("collectDate") {
      state.data := state.data["date" := input];
      state.step := Some("collectTime");
      r := CreateResponse(AskTime, None, false, "");
    } else if state.step == Some("collectTime") {
      state.data := state.data["time" := input];
      state.step := Some("collectStyle");
      r := CreateResponse(AskStyle, None, false, "");
    } else if state.step == Some("collectStyle") {
      state.data := state.data["style" := input];
      var d := state.data;
      r := CreateResponse(Summary(Field(d, "date"), Field(d, "time"), Field(d, "style")), None, true, "");
    } else {
      state.step := Some("collectDate");
      state.data := map[];
      r := CreateResponse(Restart, None, false, "");
    }
  }

  /** The first two steps store their input verbatim and advance the step. */
  lemma CollectStores(input: string, data: map<string, string>)
    ensures Step(input, Some("collectDate"), data).step == Some("collectTime")
    ensures Step(input, Some("collectDate"), data).data == data["date" := input]
    ensures Step(input, Some("collectTime"), data).step == Some("collectStyle")
    ensures Step(input, Some("collectTime"), data).data == data["time" := input]
  {
  }

  /** Each of the three values appears in the summary. */
  lemma SummaryMentions(date: string, time: string, style: string)
    ensures Contains(Summary(date, time, style), date)
    ensures Contains(Summary(date, time, style), time)
    ensures Contains(Summary(date, time, style), style)
  {
    ContainsFields(SummaryHead, date, TimeLabel, time, StyleLabel, style, SummaryTail);
  }

  /** From `collectDate`, whatever the data, three answers give the first done
      response, and it mentions all three answers. */
  lemma ThreeStepsToDone(data: map<string, string>, date: string, time: string, style: string)
    ensures var o1 := Step(date, Some("collectDate"), data);
            var o2 := Step(time, o1.step, o1.data);
            var o3 := Step(style, o2.step, o2.data);
            !o1.response.done && !o2.response.done && o3.response.done
            && o3.data == data["date" := date]["time" := time]["style" := style]
            && o3.response.message == Summary(date, time, style)
            && Contains(o3.response.message, date) && Contains(o3.response.message, time)
            && Contains(o3.response.message, style)
  {
    SummaryMentions(date, time, style);
  }

  /** Any other step, including none, restarts the flow with empty data. */
  lemma UnknownStepResets(input: string, step: Option<string>, data: map<string, string>)
    requires step != Some("collectDate") && step != Some("collectTime") && step != Some("collectStyle")
    ensures Step(input, step, data) ==
            StepOutcome(Some("collectDate"), map[], Response(Restart, None, false, None))
  {
  }
}
