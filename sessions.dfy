/** The per-sender conversation record the routers keep, and the response
    shape the interactive flow modules return to them. */
module Sessions {
  import opened Wrappers
  import opened Outbound

  /** `{ message, buttons, done, nextStep }` as built by a flow module. */
  datatype Response = Response(message: string, buttons: Option<seq<Button>>, done: bool,
                               nextStep: Option<string>)

  /** `createResponse(message, { buttons, done, nextStep })`: each option
      falls back through `||` (`null`, `false`, `null`), so an empty step
      name counts as no step. */
  function CreateResponse(message: string, buttons: Option<seq<Button>>, done: bool,
                          nextStep: string): (r: Response)
    ensures r.message == message && r.buttons == buttons && r.done == done
    ensures r.nextStep.None? <==> nextStep == ""
    ensures r.nextStep.Some? ==> r.nextStep.value == nextStep
  {
    Response(message, buttons, done, if nextStep == "" then None else Some(nextStep))
  }

  /** The value of a session record `{ flow, step, data, businessId }`. */
  datatype SessionState = SessionState(flow: Option<string>, step: Option<string>,
                                       data: map<string, string>, businessId: Option<int>)

  /** The record `getState` creates for a new sender. */
  const Blank := SessionState(None, None, map[], None)

  /** What `handleStep` leaves behind: the new step and data, and its response. */
  datatype StepOutcome = StepOutcome(step: Option<string>, data: map<string, string>,
                                     response: Response)

  /** `${data.key}` in a template literal: a missing key renders as "undefined". */
  function Field(data: map<string, string>, key: string): (r: string)
    ensures key in data ==> r == data[key]
  {
    if key in data then data[key] else "undefined"
  }

  /** A session record, shared by reference between the session map and the
      flow module that updates it. */
  class Session {
    var flow: Option<string>
    var step: Option<string>
    var data: map<string, string>
    var businessId: Option<int>

    constructor ()
      ensures State() == Blank
    {
      flow, step, data, businessId := None, None, map[], None;
    }

    function State(): SessionState
      reads this
    {
      SessionState(flow, step, data, businessId)
    }
  }
}
