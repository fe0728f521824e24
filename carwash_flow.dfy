/** The interactive car-wash flow: package (offered as buttons), then
    location, then time, then a summary marked done. */
module CarwashFlow {
  import opened Wrappers
  import opened Text
  import opened Outbound
  import opened Sessions

  const Keyword := "carwash"

  const ChoosePrompt := "🚗 Choose a car wash package:"
  const AskLocation := "Awesome choice! Where should we meet your car? (send suburb or location pin)"
  const AskTime := "Noted. When should we be there? (e.g. Saturday 10am)"
  const Restart := "Let’s restart your car wash request. Pick a package to continue:"

  /** `packageButtons`: the three packages, in this order. */
  const PackageButtons := [Button("carwash_basic", "Basic Wash"), Button("carwash_deluxe", "Deluxe Wash"),
                           Button("carwash_detail", "Detailing")]

  const SummaryHead := "🧽 Car wash scheduled!\n• Package: "
  const LocationLabel := "\n• Location: "
  const TimeLabel := "\n• Time: "
  const SummaryTail := "\n\nWe’ll send a confirmation soon."

  /** The confirmation message that closes the flow. */
  function Summary(pkg: string, location: string, time: string): string {
    SummaryHead + pkg + LocationLabel + location + TimeLabel + time + SummaryTail
  }

  /** `startFlow`: offers exactly the three package buttons and asks the router
      to put the session on `selectPackage`. */
  function StartFlow(): (r: Response)
    ensures r.buttons == Some(PackageButtons) && |r.buttons.value| == 3
    ensures r.nextStep == Some("selectPackage") && !r.done
  {
    CreateResponse(ChoosePrompt, Some(PackageButtons), false, "selectPackage")
  }

  /** The package stored for an answer at `selectPackage`: a button id
      compared case-insensitively names its package, anything else is kept
      verbatim. */
  function PackageName(input: string): (p: string)
    ensures (exists b | b in PackageButtons :: ToLower(input) == b.id) ==>
              exists b | b in PackageButtons :: ToLower(input) == b.id && p == b.title
    ensures (forall b | b in PackageButtons :: ToLower(input) != b.id) ==> p == input
  {
    var normalized := ToLower(input);
    if normalized == "carwash_basic" then "Basic Wash"
    else if normalized == "carwash_deluxe" then "Deluxe Wash"
    else if normalized == "carwash_detail" then "Detailing"
    else input
  }

  /** `handleStep(input, state)` as a function of the step and data it finds.
      Only the last step answers done, no response names a next step, and
      only the restart carries buttons. */
  function Step(input: string, step: Option<string>, data: map<string, string>): (o: StepOutcome)
    ensures o.response.done <==> step == Some("collectTime")
    ensures o.response.nextStep.None?
    ensures o.response.buttons.Some? <==>
            step != Some("selectPackage") && step != Some("collectLocation") && step != Some("collectTime")
    ensures o.step.Some?
  {
    if step == Some("selectPackage") then
      StepOutcome(Some("collectLocation"), data["package" := PackageName(input)],
                  CreateResponse(AskLocation, None, false, ""))
    else if step == Some("collectLocation") then
      StepOutcome(Some("collectTime"), data["location" := input], CreateResponse(AskTime, None, false, ""))
    else if step == Some("collectTime") then
      var d := data["time" := input];
      StepOutcome(step, d,
        CreateResponse(Summary(Field(d, "package"), Field(d, "location"), Field(d, "time")), None, true, ""))
    else
      StepOutcome(Some("selectPackage"), map[], CreateResponse(Restart, Some(PackageButtons), false, ""))
  }

  /** `handleStep`: updates the session's step and data in place, and nothing else. */
  method HandleStep(input: string, state: Session) returns (r: Response)
    modifies state`step, state`data
    ensures Step(input, old(state.step), old(state.data)) == StepOutcome(state.step, state.data, r)
  {
    if state.step == Some("selectPackage") {
      var normalized := ToLower(input);
      var pkg := if normalized == "carwash_basic" then "Basic Wash"
                 else if normalized == "carwash_deluxe" then "Deluxe Wash"
                 else if normalized == "carwash_detail" then "Detailing"
                 else input;
      state.data := state.data["package" := pkg];
      state.step := Some("collectLocation");
      r := CreateResponse(AskLocation, None, false, "");
    } else if state.step == Some("collectLocation") {
      state.data := state.data["location" := input];
      state.step := Some("collectTime");
      r := CreateResponse(AskTime, None, false, "");
    } else if state.step == Some("collectTime") {
      state.data := state.data["time" := input];
      var d := state.data;
      r := CreateResponse(Summary(Field(d, "package"), Field(d, "location"), Field(d, "time")), None, true, "");
    } else {
      state.step := Some("selectPackage");
      state.data := map[];
      r := CreateResponse(Restart, Some(PackageButtons), false, "");
    }
  }

  /** The package ids map to their titles whatever their letter case; for
      example `CARWASH_Deluxe` selects the deluxe wash. */
  lemma PackageIds()
    ensures PackageName("carwash_basic") == "Basic Wash"
    ensures PackageName("CARWASH_Deluxe") == "Deluxe Wash"
    ensures PackageName("Carwash_Detail") == "Detailing"
    ensures PackageName("Full valet") == "Full valet"
  {
    assert ToLower("carwash_basic") == "carwash_basic" by {
      ToLowerOfLower("carwash_basic");
    }
    assert ToLower("CARWASH_Deluxe") == "carwash_deluxe" by {
      var s, l := "CARWASH_Deluxe", "carwash_deluxe";
      forall i | 0 <= i < |s| ensures ToLower(s)[i] == l[i] {
        assert ToLower(s)[i] == LowerChar(s[i]);
      }
    }
    assert ToLower("Carwash_Detail") == "carwash_detail" by {
      var s, l := "Carwash_Detail", "carwash_detail";
      forall i | 0 <= i < |s| ensures ToLower(s)[i] == l[i] {
        assert ToLower(s)[i] == LowerChar(s[i]);
      }
    }
    assert ToLower("Full valet")[0] == 'f';
  }

  lemma SummaryMentions(pkg: string, location: string, time: string)
    ensures Contains(Summary(pkg, location, time), pkg)
    ensures Contains(Summary(pkg, location, time), location)
    ensures Contains(Summary(pkg, location, time), time)
  {
    ContainsFields(SummaryHead, pkg, LocationLabel, location, TimeLabel, time, SummaryTail);
  }

  /** selectPackage, collectLocation, collectTime: the third answer gives the
      first done response, and its summary holds the package, location and time. */
  lemma ThreeStepsToDone(data: map<string, string>, choice: string, location: string, time: string)
    ensures var o1 := Step(choice, Some("selectPackage"), data);
            var o2 := Step(location, o1.step, o1.data);
            var o3 := Step(time, o2.step, o2.data);
            o1.step == Some("collectLocation") && o2.step == Some("collectTime")
            && !o1.response.done && !o2.response.done && o3.response.done
            && o3.data == data["package" := PackageName(choice)]["location" := location]["time" := time]
            && o3.response.message == Summary(PackageName(choice), location, time)
            && Contains(o3.response.message, PackageName(choice))
            && Contains(o3.response.message, location) && Contains(o3.response.message, time)
  {
    SummaryMentions(PackageName(choice), location, time);
  }

  /** Any other step restarts at `selectPackage` with empty data and the
      package buttons again. */
  lemma UnknownStepResets(input: string, step: Option<string>, data: map<string, string>)
    requires step != Some("selectPackage") && step != Some("collectLocation") && step != Some("collectTime")
    ensures Step(input, step, data) ==
            StepOutcome(Some("selectPackage"), map[], Response(Restart, Some(PackageButtons), false, None))
  {
  }
}
