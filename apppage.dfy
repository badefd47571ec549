/** The ticket analyzer page (`frontend/src/pages/AppPage.js`): its four state cells, the
    submit handler split at its one `await`, the enabling rules of the text area and the
    submit button, and what the page shows for a given state. The HTTP call is replaced by
    the request it would send and an `Outcome` standing for its settlement. */
module AppPage {
  import opened Wrappers
  import opened JsString
  import Utils

  /** The fixed label list sent with every request. */
  const CandidateLabels: seq<string> :=
    ["Billing", "Technical Support", "Feature Request", "Bug Report", "Account Management"]

  const EmptyTicketError := "Ticket text cannot be empty."
  const ServiceError := "Failed to process the ticket. The AI service might be down."

  /** The response body of a successful analysis, stored verbatim. */
  datatype AnalysisResult = AnalysisResult(category: string, summary: string)

  /** The body of the POST to the analysis service. */
  datatype Request = Request(text: string, candidateLabels: seq<string>)

  /** How the POST settles: with a response body, or by throwing (any network or HTTP error). */
  datatype Outcome = Success(data: AnalysisResult) | Failure

  /** The page's `useState` cells. */
  datatype State = State(ticketText: string, isLoading: bool, result: Option<AnalysisResult>, error: string)

  /** A state change together with the request it issues, if any. */
  datatype Step = Step(next: State, request: Option<Request>)

  /** The state on mount. */
  const Initial := State("", false, None, "")

  /** What holds between events: the error cell holds one of the page's two messages or
      nothing, and while a request is in flight the text is not blank and neither a result
      nor an error is held. */
  predicate Inv(s: State) {
    (s.error == "" || s.error == EmptyTicketError || s.error == ServiceError) &&
    (s.isLoading ==> !IsBlank(s.ticketText) && s.result == None && s.error == "")
  }

  /** Every label the page sends has a gradient of its own, and they are pairwise distinct. */
  lemma CandidateLabelsHaveColors()
    ensures |CandidateLabels| == 5
    ensures forall i :: 0 <= i < |CandidateLabels| ==> CandidateLabels[i] in Utils.Colors
    ensures forall i, j :: 0 <= i < j < |CandidateLabels| ==> CandidateLabels[i] != CandidateLabels[j]
    ensures forall c :: c in Utils.Colors <==> c in CandidateLabels
  {
  }

  /** The submit button is enabled: nothing is in flight and the text is not blank. */
  predicate SubmitEnabled(s: State)
    ensures SubmitEnabled(s) ==> !s.isLoading && s.ticketText != ""
  {
    !s.isLoading && !IsBlank(s.ticketText)
  }

  /** `SubmitEnabled` is the negation of the button's `disabled={isLoading || !ticketText.trim()}`:
      enabled exactly when nothing is in flight and the trimmed text is non-empty. */
  lemma SubmitEnabledIsNotDisabled(s: State)
    ensures SubmitEnabled(s) <==> !s.isLoading && Trim(s.ticketText) != ""
  {
    BlankIffTrimEmpty(s.ticketText);
  }

  /** A change event from the text area, which is disabled while loading: it replaces the
      text when the area is enabled and changes nothing otherwise. Only the text can change. */
  function AfterEdit(s: State, text: string): (t: State)
    ensures t.isLoading == s.isLoading && t.result == s.result && t.error == s.error
    ensures t.ticketText == (if s.isLoading then s.ticketText else text)
  {
    if s.isLoading then s else s.(ticketText := text)
  }

  /** `handleSubmit` up to its `await`. A blank text sets the validation error and issues
      no request, leaving everything else as it was. Otherwise the page starts loading,
      drops the previous result and error, and issues one request with the text exactly as
      typed (untrimmed) and the fixed label list. */
  function AfterSubmit(s: State): (st: Step)
    ensures st.next.ticketText == s.ticketText
    ensures st.request.Some? <==> exists i :: 0 <= i < |s.ticketText| && !IsWhitespace(s.ticketText[i])
    ensures st.request == None ==>
              st.next.error == EmptyTicketError && st.next.isLoading == s.isLoading && st.next.result == s.result
    ensures st.request.Some? ==>
              st.next.isLoading && st.next.result == None && st.next.error == "" &&
              st.request.value == Request(s.ticketText, CandidateLabels)
  {
    if IsBlank(s.ticketText) then
      Step(s.(error := EmptyTicketError), None)
    else
      Step(s.(isLoading := true, result := None, error := ""), Some(Request(s.ticketText, CandidateLabels)))
  }

  /** `handleSubmit` after its `await`: a response body is stored verbatim, a failure sets
      the generic message, and loading ends either way. The text is untouched. */
  function AfterComplete(s: State, outcome: Outcome): (t: State)
    ensures !t.isLoading && t.ticketText == s.ticketText
    ensures outcome.Success? ==> t.result == Some(outcome.data) && t.error == s.error
    ensures outcome.Failure? ==> t.error == ServiceError && t.result == s.result
  {
    match outcome
    case Success(data) => s.(result := Some(data), isLoading := false)
    case Failure => s.(error := ServiceError, isLoading := false)
  }

  /** A click on the submit button. A disabled button delivers nothing, so a click on it
      (while loading, or with a blank text) changes nothing and sends nothing. A click on
      the enabled button starts loading, drops the previous result and error, and sends the
      text as typed with the fixed labels. The validation error is never produced. */
  function AfterPress(s: State): (st: Step)
    ensures st.request.Some? <==> SubmitEnabled(s)
    ensures !SubmitEnabled(s) ==> st == Step(s, None)
    ensures st.request.Some? ==>
              st.request.value == Request(s.ticketText, CandidateLabels) &&
              st.next == s.(isLoading := true, result := None, error := "")
    ensures st.next.error != EmptyTicketError || s.error == EmptyTicketError
  {
    if SubmitEnabled(s) then AfterSubmit(s) else Step(s, None)
  }

  lemma InitialInv()
    ensures Inv(Initial) && !SubmitEnabled(Initial)
  {
  }

  lemma EditPreservesInv(s: State, text: string)
    requires Inv(s)
    ensures Inv(AfterEdit(s, text))
  {
  }

  lemma SubmitPreservesInv(s: State)
    requires Inv(s)
    ensures Inv(AfterSubmit(s).next)
  {
  }

  lemma CompletePreservesInv(s: State, outcome: Outcome)
    requires Inv(s)
    ensures Inv(AfterComplete(s, outcome))
  {
  }

  // ---------------------------------------------------------------------------------
  // What the page shows
  // ---------------------------------------------------------------------------------

  /** The result card: the category badge with its gradient, and the summary. */
  datatype ResultCard = ResultCard(category: string, summary: string, color: string)

  /** The parts of the page that depend on its state. */
  datatype View = View(
    textareaEnabled: bool,
    buttonEnabled: bool,
    buttonLabel: string,
    inputError: Option<string>,
    card: Option<ResultCard>)

  /** The rendered page: the text area's `disabled` and `error` props, the button's
      `disabled` prop and label, and the result card guarded by `result && ...`. */
  function Render(s: State): (v: View)
    ensures v.textareaEnabled <==> !s.isLoading
    ensures v.buttonEnabled <==> SubmitEnabled(s)
    ensures v.inputError == (if s.error != "" then Some(s.error) else None)
    ensures v.buttonLabel == (if s.isLoading then "Processing with AI..." else "Analyze Ticket")
    ensures v.card.Some? <==> s.result.Some?
    ensures s.result.Some? ==>
              v.card.value.category == s.result.value.category &&
              v.card.value.summary == s.result.value.summary
  {
    View(
      !s.isLoading,
      SubmitEnabled(s),
      if s.isLoading then "Processing with AI..." else "Analyze Ticket",
      if s.error != "" then Some(s.error) else None,
      match s.result
      case Some(r) => Some(ResultCard(r.category, r.summary, Utils.CategoryColor(r.category)))
      case None => None)
  }

  /** While a request is in flight the page shows neither a result nor an error, the
      button is disabled and says it is processing, and the text cannot be edited. */
  lemma RenderWhileLoading(s: State)
    requires Inv(s) && s.isLoading
    ensures Render(s) == View(false, false, "Processing with AI...", None, None)
  {
  }

  /** A submission that succeeds shows the response's category and summary verbatim, with
      the category's colour, and no error; the button is ready for the next submission. */
  lemma RenderAfterSuccess(s: State, data: AnalysisResult)
    requires Inv(s) && SubmitEnabled(s)
    ensures var v := Render(AfterComplete(AfterPress(s).next, Success(data)));
            v.card == Some(ResultCard(data.category, data.summary, Utils.CategoryColor(data.category))) &&
            v.inputError == None && v.buttonEnabled && v.buttonLabel == "Analyze Ticket"
  {
  }

  /** A submission that fails shows the generic message and no result, even when an
      earlier submission had left a result on the page. */
  lemma RenderAfterFailure(s: State)
    requires Inv(s) && SubmitEnabled(s)
    ensures var v := Render(AfterComplete(AfterPress(s).next, Failure));
            v.card == None && v.inputError == Some(ServiceError) && v.buttonEnabled
  {
  }

  // ---------------------------------------------------------------------------------
  // Sessions: the page driven only through its user interface
  // ---------------------------------------------------------------------------------

  /** What can happen to the page: the user edits the text or clicks the button, or the
      request in flight settles. */
  datatype Event = Edited(text: string) | Clicked | Settled(outcome: Outcome)

  /** The page state, the number of requests in flight and every request sent so far. */
  datatype Session = Session(state: State, inFlight: nat, sent: seq<Request>)

  const Start := Session(Initial, 0, [])

  /** One event. A settlement arrives only for a request in flight. */
  function Deliver(ss: Session, e: Event): Session {
    match e
    case Edited(text) => ss.(state := AfterEdit(ss.state, text))
    case Clicked =>
      var st := AfterPress(ss.state);
      if st.request.Some? then Session(st.next, ss.inFlight + 1, ss.sent + [st.request.value])
      else ss.(state := st.next)
    case Settled(outcome) =>
      if ss.inFlight > 0 then Session(AfterComplete(ss.state, outcome), ss.inFlight - 1, ss.sent)
      else ss
  }

  /** A sequence of events, in order. */
  function Run(ss: Session, events: seq<Event>): Session
    decreases |events|
  {
    if events == [] then ss else Run(Deliver(ss, events[0]), events[1..])
  }

  /** One request is in flight exactly while the page is loading, never more; every
      request sent carries a non-blank text and the fixed label list. */
  predicate SessionInv(ss: Session) {
    Inv(ss.state) &&
    ss.inFlight == (if ss.state.isLoading then 1 else 0) &&
    forall r :: r in ss.sent ==> !IsBlank(r.text) && r.candidateLabels == CandidateLabels
  }

  lemma DeliverPreservesSessionInv(ss: Session, e: Event)
    requires SessionInv(ss)
    ensures SessionInv(Deliver(ss, e))
  {
  }

  /** Driven through its user interface from the mount state, the page never has more than
      one analysis request in flight, has one exactly while it shows loading, and never
      sends a blank text or a label list other than the fixed one. */
  lemma {:induction false} AtMostOneRequestInFlight(events: seq<Event>)
    ensures var ss := Run(Start, events);
            ss.inFlight <= 1 && (ss.inFlight == 1 <==> ss.state.isLoading) &&
            forall r :: r in ss.sent ==> !IsBlank(r.text) && r.candidateLabels == CandidateLabels
  {
    InitialInv();
    RunPreservesSessionInv(Start, events);
  }

  lemma {:induction false} RunPreservesSessionInv(ss: Session, events: seq<Event>)
    requires SessionInv(ss)
    ensures SessionInv(Run(ss, events))
    decreases |events|
  {
    if events != [] {
      DeliverPreservesSessionInv(ss, events[0]);
      RunPreservesSessionInv(Deliver(ss, events[0]), events[1..]);
    }
  }

  // ---------------------------------------------------------------------------------
  // The component
  // ---------------------------------------------------------------------------------

  /** The mounted page: its state cells, updated in place by its handlers. */
  class Analyzer {
    var ticketText: string
    var isLoading: bool
    var result: Option<AnalysisResult>
    var error: string

    function Current(): State
      reads this
    {
      State(ticketText, isLoading, result, error)
    }

    ghost predicate Valid()
      reads this
    {
      Inv(Current())
    }

    /** Mount: empty text, not loading, no result, no error. */
    constructor ()
      ensures Valid() && Current() == Initial
    {
      ticketText, isLoading, result, error := "", false, None, "";
      new;
      InitialInv();
      assert Current() == Initial;
    }

    /** The text area's `onChange`, delivered only while the area is enabled. */
    method Input(text: string)
      requires Valid()
      modifies this
      ensures Valid() && Current() == AfterEdit(old(Current()), text)
    {
      if !isLoading {
        ticketText := text;
      }
    }

    /** `handleSubmit` up to its `await`; returns the request it sends, if any. */
    method Submit() returns (request: Option<Request>)
      requires Valid()
      modifies this
      ensures Valid()
      ensures Step(Current(), request) == AfterSubmit(old(Current()))
    {
      ghost var s0 := Current();
      if IsBlank(ticketText) {
        error := EmptyTicketError;
        request := None;
      } else {
        isLoading, result, error := true, None, "";
        request := Some(Request(ticketText, CandidateLabels));
      }
      assert Step(Current(), request) == AfterSubmit(s0);
    }

    /** The rest of `handleSubmit` once the request settles: `try`, `catch`, `finally`.
        Only the one request in flight can settle, so the page is loading. */
    method Complete(outcome: Outcome)
      requires Valid() && isLoading
      modifies this
      ensures Valid() && Current() == AfterComplete(old(Current()), outcome)
    {
      match outcome {
        case Success(data) =>
          result := Some(data);
        case Failure =>
          error := ServiceError;
      }
      isLoading := false;
    }

    /** A click on the submit button, which reaches `handleSubmit` only when enabled. */
    method Press() returns (request: Option<Request>)
      requires Valid()
      modifies this
      ensures Valid()
      ensures Step(Current(), request) == AfterPress(old(Current()))
    {
      if SubmitEnabled(Current()) {
        request := Submit();
      } else {
        request := None;
      }
    }
  }
}
