/** The payment form's submit handler as a state machine. The embedded
    widget's `confirmPayment` call is not modelled: its result is an input.
    Calls the form makes to its parent are returned, in order, as `Callback`s. */
module PaymentForm {
  import opened CartTypes

  datatype FormState = FormState(isSubmitting: bool, localError: string)

  /** A call from the form to its parent. */
  datatype Callback = SetErrorMessage(message: string) | PaymentSucceeded

  /** What the widget's confirmation reports: success, an error whose message
      may be missing, or a rejected promise. The handler has no `catch`, so a
      rejection ends it right after the await. */
  datatype ConfirmResult = Confirmed | ConfirmError(message: Option<string>) | ConfirmThrew

  /** A state change together with the parent calls made on the way. */
  datatype Step = Step(state: FormState, calls: seq<Callback>)

  const InitialForm: FormState := FormState(false, "")

  const UnexpectedError: string := "An unexpected error occurred."

  /** `error.message || "An unexpected error occurred."` */
  function ErrorText(message: Option<string>): (r: string)
    ensures r != ""
    ensures message.Some? && message.value != "" ==> r == message.value
    ensures message.None? || message.value == "" ==> r == UnexpectedError
  {
    if message.Some? && message.value != "" then message.value else UnexpectedError
  }

  /** How many times the parent is told the payment went through. */
  function SuccessCalls(calls: seq<Callback>): nat
  {
    if calls == [] then 0
    else (if calls[0].PaymentSucceeded? then 1 else 0) + SuccessCalls(calls[1..])
  }

  /** The state while confirmation is awaited: submitting, errors cleared. */
  function Pending(st: FormState): Step
  {
    Step(FormState(true, ""), [SetErrorMessage("")])
  }

  /** The state once confirmation answered. */
  function Settle(st: FormState, result: ConfirmResult): Step
  {
    match result
    case ConfirmError(m) =>
      var text := ErrorText(m);
      Step(FormState(false, text), [SetErrorMessage(text)])
    case Confirmed => Step(st, [PaymentSucceeded])
    case ConfirmThrew => Step(st, [])
  }

  /** `handleSubmit`: without a loaded widget nothing happens; otherwise the
      form goes pending, then settles on the confirmation result. */
  function HandleSubmit(st: FormState, stripeLoaded: bool, elementsLoaded: bool,
                        result: ConfirmResult): (r: Step)
    ensures !(stripeLoaded && elementsLoaded) ==> r == Step(st, [])
    ensures stripeLoaded && elementsLoaded && result.Confirmed? ==>
              r.state == FormState(true, "") &&
              SuccessCalls(r.calls) == 1 &&
              r.calls == [SetErrorMessage(""), PaymentSucceeded]
    ensures stripeLoaded && elementsLoaded && result.ConfirmError? ==>
              !r.state.isSubmitting && r.state.localError != "" &&
              r.state.localError == ErrorText(result.message) &&
              SuccessCalls(r.calls) == 0 &&
              r.calls == [SetErrorMessage(""), SetErrorMessage(r.state.localError)]
    ensures stripeLoaded && elementsLoaded && result.ConfirmThrew? ==>
              r.state == FormState(true, "") &&
              SuccessCalls(r.calls) == 0 &&
              r.calls == [SetErrorMessage("")]
  {
    if !(stripeLoaded && elementsLoaded) then Step(st, [])
    else
      var pending := Pending(st);
      var settled := Settle(pending.state, result);
      var calls := pending.calls + settled.calls;
      assert calls[1..] == settled.calls;
      assert settled.calls != [] ==> settled.calls[1..] == [];
      assert SuccessCalls(calls) == SuccessCalls(settled.calls);
      assert SuccessCalls(settled.calls) == if result.Confirmed? then 1 else 0;
      Step(settled.state, calls)
  }

  /** `disabled={!stripe || isSubmitting}` */
  predicate ButtonDisabled(stripeLoaded: bool, st: FormState)
  {
    !stripeLoaded || st.isSubmitting
  }

  /** The error line is rendered when the local error is non-empty. */
  predicate ErrorShown(st: FormState)
  {
    st.localError != ""
  }

  // ---------------------------------------------------------------------
  // Properties

  /** While confirmation is awaited the button is disabled and no error shows. */
  lemma PendingBlocksResubmit(st: FormState, stripeLoaded: bool)
    ensures ButtonDisabled(stripeLoaded, Pending(st).state)
    ensures !ErrorShown(Pending(st).state)
  {
  }

  /** After a declined confirmation an error is always shown (the fallback text
      is non-empty), the parent receives the same text, and the button is
      enabled again: the user can retry. */
  lemma DeclineAllowsRetry(st: FormState, message: Option<string>)
    ensures var r := HandleSubmit(st, true, true, ConfirmError(message));
            ErrorShown(r.state) && !ButtonDisabled(true, r.state) &&
            r.calls[|r.calls| - 1] == SetErrorMessage(ErrorText(message))
  {
  }

  /** After a successful confirmation the button stays disabled, so the
      parent is told of the payment once per submit and no error shows. */
  lemma SuccessKeepsFormLocked(st: FormState, stripeLoaded: bool)
    ensures var r := HandleSubmit(st, true, true, Confirmed);
            ButtonDisabled(stripeLoaded, r.state) && !ErrorShown(r.state) &&
            SuccessCalls(r.calls) == 1
  {
  }

  /** A rejected confirmation leaves the form stuck as it was while awaiting:
      the button stays disabled, no error shows, the parent's message was last
      set to "" and the payment is never reported. */
  lemma RejectedConfirmLeavesFormStuck(st: FormState)
    ensures var r := HandleSubmit(st, true, true, ConfirmThrew);
            ButtonDisabled(true, r.state) && !ErrorShown(r.state) &&
            r.calls[|r.calls| - 1] == SetErrorMessage("") && SuccessCalls(r.calls) == 0
  {
  }

  /** A submit before the widget is ready leaves the form as it was. */
  lemma SubmitWithoutWidgetIsInert(st: FormState, result: ConfirmResult)
    ensures HandleSubmit(st, false, true, result) == Step(st, [])
    ensures HandleSubmit(st, true, false, result) == Step(st, [])
  {
  }
}
