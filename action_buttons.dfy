/** The Clear All and Generate Content buttons of the generation form. Their
    conditions test the transcript untrimmed: any non-empty string counts. */
module ActionButtons {
  import opened JsText

  /** `disabled={isGenerating || (!inputTranscript && attachedFiles.length === 0)}`. */
  predicate GenerateDisabled(isGenerating: bool, inputTranscript: String, attachedCount: nat)
  {
    isGenerating || (inputTranscript == [] && attachedCount == 0)
  }

  /** The blue, enabled-looking style of the Generate button. */
  predicate GenerateEnabledStyle(isGenerating: bool, inputTranscript: String, attachedCount: nat)
  {
    !isGenerating && (inputTranscript != [] || attachedCount > 0)
  }

  /** The orange, active style of the Clear All button. */
  predicate ClearActive(inputTranscript: String, attachedCount: nat, generatedCount: nat)
  {
    inputTranscript != [] || attachedCount > 0 || generatedCount > 0
  }

  /** The Generate button's label. */
  function GenerateLabel(isGenerating: bool): (caption: String)
    ensures caption == "Generating..." <==> isGenerating
  {
    if isGenerating then "Generating..." else "Generate Content"
  }

  /** The style is enabled exactly when the button is not disabled. */
  lemma StyleMatchesDisabled(isGenerating: bool, inputTranscript: String, attachedCount: nat)
    ensures GenerateEnabledStyle(isGenerating, inputTranscript, attachedCount)
      <==> !GenerateDisabled(isGenerating, inputTranscript, attachedCount)
  {
  }

  /** While generating the button is disabled, whatever the input. */
  lemma DisabledWhileGenerating(inputTranscript: String, attachedCount: nat)
    ensures GenerateDisabled(true, inputTranscript, attachedCount)
  {
  }

  /** A transcript of white space alone enables the button, because the
      test is not trimmed. */
  lemma WhitespaceEnables(inputTranscript: String)
    requires inputTranscript != [] && AllSpace(inputTranscript)
    ensures !GenerateDisabled(false, inputTranscript, 0)
  {
  }
}
