/** The `App` component's state and its handlers, updating that state in
    place. Each handler is proved to perform exactly the `Lifecycle.Step`
    of its event, and to keep `Lifecycle.Inv`. */
module Component {
  import opened Json
  import opened Registry
  import opened Form
  import opened Lifecycle

  class App {
    var formData: FormData
    var result: Json
    var loading: bool
    /** Bodies of the requests sent whose continuation has not yet run. */
    ghost var inFlight: seq<Json>

    ghost function Snapshot(): State
      reads this
    {
      State(formData, result, loading, inFlight)
    }

    ghost predicate Valid()
      reads this
    {
      Inv(Snapshot())
    }

    /** The three `useState` calls: the form at its defaults, no result,
        not loading. */
    constructor ()
      ensures Valid() && Snapshot() == Initial()
      ensures formData == InitialForm() && result == JNull && !loading && inFlight == []
    {
      formData := InitialForm();
      result := JNull;
      loading := false;
      inFlight := [];
      InitialInv();
    }

    /** `handleChange`, fired by one of the form's inputs or selects. */
    method HandleChange(name: string, text: string)
      requires Valid() && Enabled(Snapshot(), Change(name, text))
      modifies this
      ensures Valid()
      ensures Snapshot() == Step(old(Snapshot()), Change(name, text)).next
      ensures formData == old(formData)[name := Text(text)]
      ensures result == old(result) && loading == old(loading) && inFlight == old(inFlight)
    {
      StepPreservesInv(Snapshot(), Change(name, text));
      formData := Changed(formData, name, text);
    }

    /** `handleSubmit` up to the request: start loading, clear the result,
        and post the form as it is now. */
    method HandleSubmit() returns (request: Output)
      requires Valid() && Enabled(Snapshot(), Submit)
      modifies this
      ensures Valid()
      ensures Snapshot() == Step(old(Snapshot()), Submit).next
      ensures request == Step(old(Snapshot()), Submit).out
      ensures request == Post(PredictUrl, RequestBody(formData))
      ensures loading && result == JNull && formData == old(formData)
      ensures inFlight == [RequestBody(formData)]
    {
      StepPreservesInv(Snapshot(), Submit);
      loading := true;
      result := JNull;
      var body := RequestBody(formData);
      inFlight := inFlight + [body];
      request := Post(PredictUrl, body);
    }

    /** The timer callback scheduled once the response body has parsed:
        `setResult(data)` then `setLoading(false)`. */
    method OnResponseParsedThenTimerFired(data: Json)
      requires Valid() && Enabled(Snapshot(), ResponseParsedThenTimerFired(data))
      modifies this
      ensures Valid()
      ensures Snapshot() == Step(old(Snapshot()), ResponseParsedThenTimerFired(data)).next
      ensures result == data && !loading && formData == old(formData) && inFlight == []
    {
      StepPreservesInv(Snapshot(), ResponseParsedThenTimerFired(data));
      result := data;
      loading := false;
      inFlight := inFlight[1..];
    }

    /** The `catch` branch: stop loading and report the failure. */
    method OnTransportOrParseFailed() returns (alert: Output)
      requires Valid() && Enabled(Snapshot(), TransportOrParseFailed)
      modifies this
      ensures Valid()
      ensures Snapshot() == Step(old(Snapshot()), TransportOrParseFailed).next
      ensures alert == Alert(ConnectionError)
      ensures !loading && result == old(result) == JNull && formData == old(formData) && inFlight == []
    {
      StepPreservesInv(Snapshot(), TransportOrParseFailed);
      loading := false;
      inFlight := inFlight[1..];
      alert := Alert(ConnectionError);
    }

    /** The "Check Another Patient" button: `setResult(null)`. */
    method CheckAnotherPatient()
      requires Valid() && Enabled(Snapshot(), CheckAnother)
      modifies this
      ensures Valid()
      ensures Snapshot() == Step(old(Snapshot()), CheckAnother).next
      ensures result == JNull && loading == old(loading) == false
      ensures formData == old(formData) && inFlight == old(inFlight)
    {
      StepPreservesInv(Snapshot(), CheckAnother);
      result := JNull;
    }

    /** The phase the page renders, read from the real fields. */
    method Phase() returns (p: Phase)
      requires Valid()
      ensures p == PhaseOf(Snapshot())
      ensures p == Submitting <==> loading
      ensures p == ShowingResult <==> Truthy(result)
    {
      if loading {
        p := Submitting;
      } else if !Truthy(result) {
        p := Idle;
      } else {
        p := ShowingResult;
      }
    }
  }

  /** A client: one full cycle through the page, from idle through a
      request and its reply to the result panel and back to idle, with an
      edit made while the request is outstanding. */
  method OneCycle(reply: Json) returns (sent: Output, last: Phase, age: Value)
    requires Truthy(reply)
    ensures sent == Post(PredictUrl, RequestBody(InitialForm()))
    ensures last == Idle && age == Text("45")
  {
    var app := new App();
    InputsOrder();
    NumberTexts();
    assert Inputs[0] in Inputs && Inputs[0].name == "age";
    sent := app.HandleSubmit();
    app.HandleChange("age", "45");
    assert app.inFlight == [RequestBody(InitialForm())];
    app.OnResponseParsedThenTimerFired(reply);
    var shown := app.Phase();
    assert shown == ShowingResult;
    app.CheckAnotherPatient();
    last := app.Phase();
    age := app.formData["age"];
  }
}
