/** The feedback dialog: an option list, a free-text box for "Other", and a
    Submit button enabled once the choice is complete. */
module FeedbackModal {
  import opened Wrappers
  import opened JsText

  /** The values of the `<select>`; "" is the placeholder. */
  const Options: seq<String> := ["", "Content was inaccurate", "Missing important information", "Format not as expected", "Other"]

  /** `disabled={!feedbackOption || (feedbackOption === "Other" && !customFeedback)}`. */
  predicate SubmitDisabled(option: String, custom: String)
  {
    option == [] || (option == "Other" && custom == [])
  }

  /** What the open dialog shows. */
  datatype Dialog = Dialog(heading: String, textareaShown: bool, submitDisabled: bool, successShown: bool)

  /** The dialog for the given props; `None` is `return null`. */
  function Render(isOpen: bool, selectedOutput: String, option: String, custom: String, submitted: bool): (r: Option<Dialog>)
    ensures r.Some? <==> isOpen
    ensures r.Some? ==> ((r.value.textareaShown <==> option == "Other")
      && (r.value.successShown <==> submitted)
      && r.value.submitDisabled == SubmitDisabled(option, custom))
  {
    if !isOpen then None
    else Some(Dialog(selectedOutput, option == "Other", SubmitDisabled(option, custom), submitted))
  }

  /** Submit is disabled when nothing is chosen, and when "Other" is chosen
      with an empty text; any other chosen option enables it. */
  lemma SubmitRule(option: String, custom: String)
    ensures option == [] ==> SubmitDisabled(option, custom)
    ensures option == "Other" ==> (SubmitDisabled(option, custom) <==> custom == [])
    ensures option != [] && option != "Other" ==> !SubmitDisabled(option, custom)
  {
  }

  /** The free text only matters while its box is shown. */
  lemma CustomTextOnlyForOther(option: String, c1: String, c2: String)
    requires option != "Other"
    ensures SubmitDisabled(option, c1) == SubmitDisabled(option, c2)
  {
  }

  /** Of the listed options, the four real ones enable Submit except "Other"
      with no text. */
  lemma ListedOptions(i: nat, custom: String)
    requires 1 <= i < |Options| - 1
    ensures !SubmitDisabled(Options[i], custom)
  {
  }
}
