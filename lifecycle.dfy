/** The page's view state and the events that drive one prediction request,
    as a pure state machine. `fetch`, `response.json()` and the 1500 ms timer
    are not run: their outcomes arrive as events. */
module Lifecycle {
  import opened Json
  import opened Registry
  import opened Form
  import opened Presenter

  const PredictUrl := "http://127.0.0.1:5000/api/predict"
  const ConnectionError := "Error connecting to server."

  /** The component's state (`formData`, `result`, `loading`) and the bodies
      of the requests sent whose continuation has not yet run. */
  datatype State = State(formData: FormData, result: Json, loading: bool, inFlight: seq<Json>)

  datatype Event =
    | Change(name: string, text: string)      // an input or select of the form changed
    | Submit                                  // the form was submitted
    | ResponseParsedThenTimerFired(data: Json) // the body parsed and the 1500 ms timer ran
    | TransportOrParseFailed                  // `fetch` rejected or the body was not JSON
    | CheckAnother                            // the result panel's button was clicked

  /** What an event makes the page do outside its own state. */
  datatype Output = Silent | Post(url: string, body: Json) | Alert(message: string)

  datatype Transition = Transition(next: State, out: Output)

  /** The view the page renders. */
  datatype Phase = Idle | Submitting | ShowingResult

  function Initial(): State {
    State(InitialForm(), JNull, false, [])
  }

  /** The form is rendered exactly when `result` is falsy. */
  predicate FormShown(s: State) {
    !Truthy(s.result)
  }

  function PhaseOf(s: State): Phase {
    if s.loading then Submitting
    else if FormShown(s) then Idle
    else ShowingResult
  }

  /** Which events the rendered page can deliver: changes come only from the
      registry's inputs while the form is rendered, each carrying a text its
      control can report; submission only while the form is rendered and its
      button is enabled; the two continuations only for a request that was
      sent; and "Check Another" only from the result panel. */
  predicate Enabled(s: State, e: Event)
    ensures Enabled(s, e) && e.Change? ==> e.name in Names(Inputs)
    ensures Enabled(s, e) && e.Submit? ==> PhaseOf(s) == Idle
  {
    match e
    case Change(name, text) => FormShown(s) && exists f :: f in Inputs && f.name == name && Deliverable(f, text)
    case Submit => FormShown(s) && !s.loading
    case ResponseParsedThenTimerFired(_) => s.inFlight != []
    case TransportOrParseFailed => s.inFlight != []
    case CheckAnother => !FormShown(s)
  }

  /** The handlers. A continuation belongs to the oldest request sent. */
  function Step(s: State, e: Event): (t: Transition)
    requires e.ResponseParsedThenTimerFired? || e.TransportOrParseFailed? ==> s.inFlight != []
    ensures t.out.Post? <==> e.Submit?
    ensures t.out.Alert? <==> e.TransportOrParseFailed?
    ensures !e.Change? ==> t.next.formData == s.formData
    ensures e.Change? || e.CheckAnother? ==> t.next.loading == s.loading && t.next.inFlight == s.inFlight
    ensures e.Submit? ==> t.next.inFlight == s.inFlight + [RequestBody(s.formData)]
    ensures !e.Submit? && !e.Change? && !e.CheckAnother? ==> t.next.inFlight == s.inFlight[1..]
  {
    match e
    case Change(name, text) =>
      Transition(s.(formData := Changed(s.formData, name, text)), Silent)
    case Submit =>
      var body := RequestBody(s.formData);
      Transition(s.(loading := true, result := JNull, inFlight := s.inFlight + [body]), Post(PredictUrl, body))
    case ResponseParsedThenTimerFired(data) =>
      Transition(s.(result := data, loading := false, inFlight := s.inFlight[1..]), Silent)
    case TransportOrParseFailed =>
      Transition(s.(loading := false, inFlight := s.inFlight[1..]), Alert(ConnectionError))
    case CheckAnother =>
      Transition(s.(result := JNull), Silent)
  }

  /** An event the page cannot deliver in this state has no effect. */
  function Deliver(s: State, e: Event): (t: Transition)
    ensures Inv(s) ==> Inv(t.next)
    ensures !Enabled(s, e) ==> t.next == s && t.out == Silent
  {
    if Enabled(s, e) then
      assert Inv(s) ==> Inv(Step(s, e).next) by {
        if Inv(s) { StepPreservesInv(s, e); }
      }
      Step(s, e)
    else Transition(s, Silent)
  }

  /** The state after a sequence of events. */
  function Run(s: State, events: seq<Event>): State
    decreases |events|
  {
    if events == [] then s else Run(Deliver(s, events[0]).next, events[1..])
  }

  /** The invariant of every reachable state: the form holds exactly the
      registry's keys, no result is held while loading, and exactly one
      request is outstanding while loading and none otherwise. */
  predicate Inv(s: State) {
    && s.formData.Keys == Names(Inputs)
    && (s.loading ==> s.result == JNull)
    && |s.inFlight| == (if s.loading then 1 else 0)
  }

  lemma InitialInv()
    ensures Inv(Initial()) && PhaseOf(Initial()) == Idle
  {
  }

  lemma StepPreservesInv(s: State, e: Event)
    requires Inv(s) && Enabled(s, e)
    ensures Inv(Step(s, e).next)
  {
  }

  lemma {:induction false} RunPreservesInv(s: State, events: seq<Event>)
    requires Inv(s)
    ensures Inv(Run(s, events))
    decreases |events|
  {
    if events != [] {
      RunPreservesInv(Deliver(s, events[0]).next, events[1..]);
    }
  }

  /** Whatever the user and the network do, the page never holds a result
      while loading, and never has more than one request outstanding. */
  lemma ReachableStatesAreSafe(events: seq<Event>)
    ensures var s := Run(Initial(), events);
            Inv(s) && !(s.loading && s.result != JNull) && |s.inFlight| <= 1
  {
    InitialInv();
    RunPreservesInv(Initial(), events);
  }

  /** Submission is possible only from the idle view. */
  lemma SubmitOnlyWhenIdle(s: State)
    ensures Enabled(s, Submit) <==> PhaseOf(s) == Idle
  {
  }

  /** Submitting from idle starts loading, clears the result and posts the
      form as it is at that moment, as the one request in flight. */
  lemma SubmitFromIdle(s: State)
    requires Inv(s) && PhaseOf(s) == Idle
    ensures var t := Step(s, Submit);
            && t.out == Post(PredictUrl, RequestBody(s.formData))
            && t.next.loading && t.next.result == JNull
            && t.next.formData == s.formData
            && t.next.inFlight == [RequestBody(s.formData)]
            && PhaseOf(t.next) == Submitting
  {
  }

  /** Edits made while a request is outstanding leave the request body,
      `loading` and `result` as they were: only the form changes. */
  lemma {:induction false} EditsLeaveRequestAlone(s: State, events: seq<Event>)
    requires forall i :: 0 <= i < |events| ==> events[i].Change?
    ensures Run(s, events).inFlight == s.inFlight
    ensures Run(s, events).loading == s.loading
    ensures Run(s, events).result == s.result
    decreases |events|
  {
    if events != [] {
      EditsLeaveRequestAlone(Deliver(s, events[0]).next, events[1..]);
    }
  }

  /** Edits while loading do reach the form: whatever text a registry
      field's control reports is held. */
  lemma EditWhileLoading(s: State, f: FieldSpec, text: string)
    requires Inv(s) && PhaseOf(s) == Submitting && f in Inputs && Deliverable(f, text)
    ensures Enabled(s, Change(f.name, text))
    ensures Deliver(s, Change(f.name, text)).next.formData[f.name] == Text(text)
    ensures Deliver(s, Change(f.name, text)).next.inFlight == s.inFlight
  {
  }

  /** The number inputs carry no range: an age of 500, an emptied height
      and a weight written with an exponent all reach the form as typed. */
  lemma EditsAreUnchecked()
    ensures Deliver(Initial(), Change("age", "500")).next.formData == InitialForm()["age" := Text("500")]
    ensures Deliver(Initial(), Change("height", "")).next.formData == InitialForm()["height" := Text("")]
    ensures Deliver(Initial(), Change("weight", "1e3")).next.formData == InitialForm()["weight" := Text("1e3")]
  {
    NumberTexts();
    assert Inputs[0].name == "age" && Inputs[2].name == "height" && Inputs[3].name == "weight";
    ChangeDelivered(Initial(), 0, "age", "500");
    ChangeDelivered(Initial(), 2, "height", "");
    ChangeDelivered(Initial(), 3, "weight", "1e3");
  }

  /** A select can only report one of its options: a gender of "7" is no
      event the page can deliver, and leaves the page as it was. */
  lemma OptionsBoundSelects()
    ensures !Enabled(Initial(), Change("gender", "7"))
    ensures Deliver(Initial(), Change("gender", "7")).next == Initial()
  {
    GenderCodes();
  }

  /** A change a registry field's control reports, while the form is shown,
      stores the text under that field's name and changes nothing else. */
  lemma ChangeDelivered(s: State, i: int, name: string, text: string)
    requires FormShown(s) && 0 <= i < |Inputs| && Inputs[i].name == name && Deliverable(Inputs[i], text)
    ensures Deliver(s, Change(name, text)).next == s.(formData := Changed(s.formData, name, text))
  {
    assert Inputs[i] in Inputs;
  }

  /** When the body has parsed and the timer has run, the result and the
      end of loading arrive together; the form is left as it is. A falsy
      body leaves the form shown. */
  lemma ResponseEndsLoading(s: State, data: Json)
    requires Inv(s) && PhaseOf(s) == Submitting
    ensures var t := Step(s, ResponseParsedThenTimerFired(data));
            && t.out == Silent
            && t.next.result == data && !t.next.loading
            && t.next.formData == s.formData && t.next.inFlight == []
            && PhaseOf(t.next) == (if Truthy(data) then ShowingResult else Idle)
  {
  }

  /** A failed request alerts and returns to idle, with no result and the
      form unchanged. */
  lemma FailureReturnsToIdle(s: State)
    requires Inv(s) && PhaseOf(s) == Submitting
    ensures var t := Step(s, TransportOrParseFailed);
            && t.out == Alert(ConnectionError)
            && !t.next.loading && t.next.result == JNull
            && t.next.formData == s.formData && t.next.inFlight == []
            && PhaseOf(t.next) == Idle
  {
  }

  /** "Check Another" drops the result and returns to idle, keeping the
      form and `loading`. */
  lemma CheckAnotherReturnsToIdle(s: State)
    requires Inv(s) && PhaseOf(s) == ShowingResult
    ensures var t := Step(s, CheckAnother);
            && t.out == Silent
            && t.next.result == JNull && t.next.loading == s.loading
            && t.next.formData == s.formData && t.next.inFlight == s.inFlight
            && PhaseOf(t.next) == Idle
  {
  }

  /** `fetch` does not reject on an HTTP error status: the route's JSON
      error body, sent with status 400 or 500, is parsed and shown as the
      result, in the low tier. */
  lemma ErrorReplyShownAsLowRisk(s: State, message: string)
    requires Inv(s) && PhaseOf(s) == Submitting
    ensures var next := Step(s, ResponseParsedThenTimerFired(ErrorReply(message))).next;
            PhaseOf(next) == ShowingResult && SeverityTier(next.result) == Low
  {
    ResponseEndsLoading(s, ErrorReply(message));
  }

  /** Submitting the defaults and receiving a class-0 reply shows the low
      tier, with the form still at its defaults. */
  lemma SubmitThenLowRiskReply(probability: real)
    ensures var s := Run(Initial(), [Submit, ResponseParsedThenTimerFired(SuccessReply(0, probability))]);
            PhaseOf(s) == ShowingResult && SeverityTier(s.result) == Low && s.formData == InitialForm()
  {
    var reply := SuccessReply(0, probability);
    InitialInv();
    SubmitFromIdle(Initial());
    var s1 := Step(Initial(), Submit).next;
    ResponseEndsLoading(s1, reply);
    var s2 := Step(s1, ResponseParsedThenTimerFired(reply)).next;
    RunTwo(Initial(), Submit, ResponseParsedThenTimerFired(reply));
    assert Deliver(Initial(), Submit).next == s1;
    assert Deliver(s1, ResponseParsedThenTimerFired(reply)).next == s2;
    TierOfSuccessReply(0, probability);
  }

  /** A connection failure after submitting the defaults leaves the page idle
      with the same form, ready to submit again. */
  lemma SubmitThenFailure()
    ensures var s := Run(Initial(), [Submit, TransportOrParseFailed]);
            PhaseOf(s) == Idle && s.formData == InitialForm() && Enabled(s, Submit)
  {
  }

  lemma RunTwo(s: State, a: Event, b: Event)
    ensures Run(s, [a, b]) == Deliver(Deliver(s, a).next, b).next
  {
    var t := Deliver(s, a).next;
    assert [a, b][1..] == [b];
    assert Run(s, [a, b]) == Run(t, [b]);
    assert [b][1..] == [];
    assert Run(t, [b]) == Run(Deliver(t, b).next, []);
  }
}
