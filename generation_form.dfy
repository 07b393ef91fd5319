/** The content-generation form: a transcript typed in or attached as files
    (never both), the output formats to produce, validation on Generate, the
    list of generated files, and the feedback dialog's state. */
module GenerationForm {
  import opened Wrappers
  import opened JsText
  import opened Seqs
  import opened OutputFormats
  import opened BrowserFiles
  import ActionButtons

  const TranscriptRequired: String := "Please enter transcript text or attach transcript files."
  const FormatRequired: String := "Please select at least one output format."
  const UnsupportedFormat: String := "*Unsupported file format. Please use txt, pdf, doc, or docx files."

  /** The keys of `validationErrors` that Generate sets. */
  const TranscriptKey: String := "inputTranscript"
  const FormatsKey: String := "outputFormats"

  /** `generatedOutputs` as initialised and as `handleClear` resets it. */
  const NoOutputs: map<FormatKey, Option<String>> := map[Bpmn := None, ProcessDoc := None, TrainingScript := None]

  /** The `errors` object `handleGenerate` builds: a transcript error when the
      trimmed text is empty and no file is attached, a format error when no
      format is selected, nothing else. */
  function ValidationErrors(transcript: String, files: seq<BrowserFile>, f: Formats): (errors: map<String, String>)
    ensures (TranscriptKey in errors) == (IsBlank(transcript) && files == [])
    ensures (FormatsKey in errors) == !AnySelected(f)
    ensures forall key :: key in errors ==>
      (key == TranscriptKey && errors[key] == TranscriptRequired)
      || (key == FormatsKey && errors[key] == FormatRequired)
  {
    var e1: map<String, String> := if IsBlank(transcript) && |files| == 0 then map[TranscriptKey := TranscriptRequired] else map[];
    if !f.bpmn && !f.processDoc && !f.trainingScript then e1[FormatsKey := FormatRequired] else e1
  }

  const SupportedExtensions: seq<String> := ["txt", "pdf", "doc", "docx"]

  /** A file the transcript input accepts. */
  predicate Supported(f: BrowserFile)
  {
    Extension(f.name) in SupportedExtensions
  }

  /** A name without a dot is its own extension: "TXT" is accepted. */
  lemma DotlessName(f: BrowserFile)
    requires '.' !in f.name
    ensures Supported(f) <==> ToLower(f.name) in SupportedExtensions
  {
    ExtensionSpec(f.name);
  }

  /** Only the part after the last dot decides, in any letter case. */
  lemma SupportedByLastSegment(stem: String, ext: String, size: nat, mimeType: String)
    requires '.' !in ext
    ensures Supported(BrowserFile(stem + "." + ext, size, mimeType)) <==> ToLower(ext) in SupportedExtensions
  {
    ExtensionAfterLastDot(stem, ext);
  }

  /** The record pushed for a selected format. */
  function FileFor(k: FormatKey): (f: GeneratedFile)
    ensures f.status == "completed"
  {
    match k
    case Bpmn => GeneratedFile("bpmn", "Process_Diagram.xml", "Generated BPMN XML content...", "completed")
    case ProcessDoc => GeneratedFile("processDoc", "Process_Documentation.docx", "Generated process document content...", "completed")
    case TrainingScript => GeneratedFile("trainingScript", "Training_Script.txt", "Generated Synthesia training script...", "completed")
  }

  /** The order of the pushes: bpmn, processDoc, trainingScript. */
  function PushOrder(k: FormatKey): nat
  {
    match k
    case Bpmn => 0
    case ProcessDoc => 1
    case TrainingScript => 2
  }

  /** The formats selected in `f`, in push order. */
  function SelectedKeys(f: Formats): (ks: seq<FormatKey>)
    ensures forall k :: k in ks <==> Selected(f, k)
    ensures forall i, j :: 0 <= i < j < |ks| ==> PushOrder(ks[i]) < PushOrder(ks[j])
  {
    (if f.bpmn then [Bpmn] else []) + (if f.processDoc then [ProcessDoc] else [])
      + (if f.trainingScript then [TrainingScript] else [])
  }

  /** The records for a list of formats. */
  function FilesOf(ks: seq<FormatKey>): (files: seq<GeneratedFile>)
    ensures |files| == |ks|
  {
    if ks == [] then [] else [FileFor(ks[0])] + FilesOf(ks[1..])
  }

  lemma {:induction false} FilesOfAt(ks: seq<FormatKey>, i: nat)
    requires i < |ks|
    ensures FilesOf(ks)[i] == FileFor(ks[i])
  {
    if i > 0 {
      FilesOfAt(ks[1..], i - 1);
    }
  }

  lemma {:induction false} FilesOfAppend(a: seq<FormatKey>, b: seq<FormatKey>)
    ensures FilesOf(a + b) == FilesOf(a) + FilesOf(b)
  {
    if a == [] {
      assert a + b == b;
    } else {
      assert (a + b)[0] == a[0];
      assert (a + b)[1..] == a[1..] + b;
      FilesOfAppend(a[1..], b);
    }
  }

  /** The three conditional pushes of `handleGenerate` build `FilesOf(SelectedKeys(f))`. */
  lemma PushedFiles(f: Formats)
    ensures FilesOf(SelectedKeys(f)) == (if f.bpmn then [FileFor(Bpmn)] else [])
      + (if f.processDoc then [FileFor(ProcessDoc)] else [])
      + (if f.trainingScript then [FileFor(TrainingScript)] else [])
  {
    var a: seq<FormatKey> := if f.bpmn then [Bpmn] else [];
    var b: seq<FormatKey> := if f.processDoc then [ProcessDoc] else [];
    var c: seq<FormatKey> := if f.trainingScript then [TrainingScript] else [];
    FilesOfAppend(a + b, c);
    FilesOfAppend(a, b);
  }

  /** The three conditional `newFiles.push` calls of `handleGenerate`. */
  method PushSelected(f: Formats) returns (files: seq<GeneratedFile>)
    ensures files == FilesOf(SelectedKeys(f))
  {
    files := [];
    if f.bpmn {
      files := files + [FileFor(Bpmn)];
    }
    if f.processDoc {
      files := files + [FileFor(ProcessDoc)];
    }
    if f.trainingScript {
      files := files + [FileFor(TrainingScript)];
    }
    PushedFiles(f);
  }

  /** Generation yields one record per selected format, none for the others,
      each marked completed, in push order. */
  lemma GeneratedFilesSpec(f: Formats)
    ensures var files := FilesOf(SelectedKeys(f));
      (forall k :: FileFor(k) in files <==> Selected(f, k))
      && (forall i :: 0 <= i < |files| ==> IsCompleted(files[i]))
      && (forall i, j :: 0 <= i < j < |files| ==> files[i] != files[j])
  {
    var ks := SelectedKeys(f);
    FilesOfAll(ks);
    forall k ensures FileFor(k) in FilesOf(ks) <==> Selected(f, k) {
      FilesOfMember(ks, k);
    }
    FilesOfDistinct(ks);
  }

  /** A format's record is in the list exactly when the format is. */
  lemma {:induction false} FilesOfMember(ks: seq<FormatKey>, k: FormatKey)
    ensures FileFor(k) in FilesOf(ks) <==> k in ks
  {
    if ks != [] {
      FilesOfMember(ks[1..], k);
      FileForInjective();
      assert FilesOf(ks) == [FileFor(ks[0])] + FilesOf(ks[1..]);
      assert ks == [ks[0]] + ks[1..];
    }
  }

  /** Distinct formats give distinct records. */
  lemma FilesOfDistinct(ks: seq<FormatKey>)
    requires forall i, j :: 0 <= i < j < |ks| ==> PushOrder(ks[i]) < PushOrder(ks[j])
    ensures forall i, j :: 0 <= i < j < |ks| ==> FilesOf(ks)[i] != FilesOf(ks)[j]
  {
    FilesOfAll(ks);
  }

  lemma FilesOfAll(ks: seq<FormatKey>)
    ensures forall i :: 0 <= i < |ks| ==> FilesOf(ks)[i] == FileFor(ks[i]) && IsCompleted(FilesOf(ks)[i])
  {
    forall i | 0 <= i < |ks| ensures FilesOf(ks)[i] == FileFor(ks[i]) {
      FilesOfAt(ks, i);
    }
  }

  /** `newFiles.splice(index, 1)` on a copy: a negative index counts from
      the end (clamped to 0), an index at or past the end removes nothing. */
  function SpliceOne<T>(s: seq<T>, index: int): (r: seq<T>)
    ensures 0 <= index < |s| ==> r == s[..index] + s[index + 1..]
    ensures index >= |s| ==> r == s
    ensures -|s| <= index < 0 ==> r == s[..|s| + index] + s[|s| + index + 1..]
    ensures index < -|s| ==> r == if s == [] then [] else s[1..]
    ensures |r| == if s == [] || index >= |s| then |s| else |s| - 1
  {
    var start := if index < 0 then (if |s| + index < 0 then 0 else |s| + index)
                 else (if index > |s| then |s| else index);
    if start < |s| then s[..start] + s[start + 1..] else s
  }

  /** Removing position `i` keeps every other element, in order. */
  lemma RemoveAtKeepsOthers<T>(s: seq<T>, i: nat)
    requires i < |s|
    ensures var r := SpliceOne(s, i);
      |r| == |s| - 1 && forall j :: 0 <= j < |r| ==> r[j] == if j < i then s[j] else s[j + 1]
  {
  }

  predicate IsCompleted(f: GeneratedFile)
  {
    f.status == "completed"
  }

  /** A transcript of white space alone enables the Generate button, yet
      Generate rejects it: the button tests the text untrimmed, the handler
      trims it. */
  lemma WhitespaceTranscript(t: String)
    requires t != [] && AllSpace(t)
    ensures !ActionButtons.GenerateDisabled(false, t, 0)
    ensures IsBlank(t)
  {
    BlankIffAllSpace(t);
  }

  class Form {
    var inputTranscript: String
    var generatedOutputs: map<FormatKey, Option<String>>
    var selectedFormats: Formats
    var attachedFiles: seq<BrowserFile>
    var validationErrors: map<String, String>
    var copied: bool
    var isGenerating: bool
    var generatedFiles: seq<GeneratedFile>
    var feedbackStates: map<String, String>
    var isModalOpen: bool
    var selectedOutput: String
    var feedbackOption: String
    var customFeedback: String
    var feedbackSubmitted: bool
    /** `fileErrors.attachFiles`. */
    var fileError: String

    /** Typed text and attached files exclude each other. */
    predicate Valid()
      reads this
    {
      inputTranscript == [] || attachedFiles == []
    }

    /** The values `handleClear` writes, which are also the initial ones. */
    predicate ClearedInputs()
      reads this
    {
      inputTranscript == []
      && generatedOutputs == NoOutputs
      && selectedFormats == NoFormats && attachedFiles == [] && generatedFiles == []
      && !copied && validationErrors == map[] && fileError == [] && feedbackStates == map[]
    }

    constructor()
      ensures Valid() && ClearedInputs()
      ensures !isGenerating && !isModalOpen && selectedOutput == [] && feedbackOption == []
      ensures customFeedback == [] && !feedbackSubmitted
    {
      inputTranscript := [];
      generatedOutputs := NoOutputs;
      selectedFormats := NoFormats;
      attachedFiles := [];
      validationErrors := map[];
      copied := false;
      isGenerating := false;
      generatedFiles := [];
      feedbackStates := map[];
      isModalOpen := false;
      selectedOutput := [];
      feedbackOption := [];
      customFeedback := [];
      feedbackSubmitted := false;
      fileError := [];
    }

    /** `handleGenerate`: validation, then the generated list. The simulated
        two-second wait is one step, so generation ends within the call. */
    method Generate()
      requires Valid()
      modifies this`validationErrors, this`isGenerating, this`generatedFiles
      ensures Valid()
      ensures validationErrors == ValidationErrors(inputTranscript, attachedFiles, selectedFormats)
      ensures validationErrors == map[] ==> generatedFiles == FilesOf(SelectedKeys(selectedFormats)) && !isGenerating
      ensures validationErrors != map[] ==> generatedFiles == old(generatedFiles) && isGenerating == old(isGenerating)
    {
      var errors := ValidationErrors(inputTranscript, attachedFiles, selectedFormats);
      validationErrors := errors;
      if errors != map[] {
        return;
      }
      isGenerating := true;
      var files := PushSelected(selectedFormats);
      generatedFiles := files;
      isGenerating := false;
    }

    /** `handleClear`: every input back to its initial value; the generating
        flag and the feedback dialog are left as they are. Afterwards Clear All
        shows its inactive style and Generate is disabled. */
    method Clear()
      modifies this`inputTranscript, this`generatedOutputs, this`selectedFormats, this`attachedFiles
      modifies this`generatedFiles, this`copied, this`validationErrors, this`fileError, this`feedbackStates
      ensures Valid() && ClearedInputs()
      ensures !ActionButtons.ClearActive(inputTranscript, |attachedFiles|, |generatedFiles|)
      ensures ActionButtons.GenerateDisabled(isGenerating, inputTranscript, |attachedFiles|)
    {
      inputTranscript := [];
      generatedOutputs := NoOutputs;
      selectedFormats := NoFormats;
      attachedFiles := [];
      generatedFiles := [];
      copied := false;
      validationErrors := map[];
      fileError := [];
      feedbackStates := map[];
    }

    /** `handleInputTranscriptChange`: typing drops the attached and the generated files. */
    method InputTranscriptChange(newText: String)
      modifies this`inputTranscript, this`attachedFiles, this`generatedFiles
      ensures Valid()
      ensures inputTranscript == newText && attachedFiles == [] && generatedFiles == []
    {
      inputTranscript := newText;
      attachedFiles := [];
      generatedFiles := [];
    }

    /** `handleFileChange`: a batch is accepted only if every file has a
        supported extension; an accepted batch is appended and clears the
        text and the generated files, a rejected one only sets the error. */
    method FileChange(files: seq<BrowserFile>)
      requires Valid()
      modifies this`fileError, this`attachedFiles, this`inputTranscript, this`generatedFiles
      ensures Valid()
      ensures (forall i :: 0 <= i < |files| ==> Supported(files[i])) ==>
        attachedFiles == old(attachedFiles) + files && fileError == [] && inputTranscript == [] && generatedFiles == []
      ensures !(forall i :: 0 <= i < |files| ==> Supported(files[i])) ==>
        fileError == UnsupportedFormat && attachedFiles == old(attachedFiles)
        && inputTranscript == old(inputTranscript) && generatedFiles == old(generatedFiles)
    {
      var unsupported := Filter(files, (f: BrowserFile) => !Supported(f));
      if |unsupported| > 0 {
        assert !Supported(unsupported[0]);
        fileError := UnsupportedFormat;
      } else {
        fileError := [];
        attachedFiles := attachedFiles + files;
        inputTranscript := [];
        generatedFiles := [];
      }
    }

    /** `removeFile(index)`. */
    method RemoveFile(index: int)
      requires Valid()
      modifies this`attachedFiles
      ensures Valid()
      ensures attachedFiles == SpliceOne(old(attachedFiles), index)
    {
      attachedFiles := SpliceOne(attachedFiles, index);
    }

    /** `handleFormatChange(format)`: flips that format's flag. */
    method FormatChange(k: FormatKey)
      modifies this`selectedFormats
      ensures selectedFormats == Toggle(old(selectedFormats), k)
    {
      selectedFormats := Toggle(selectedFormats, k);
    }

    /** `handleFocus(field)`: that field's message becomes "". */
    method Focus(field: String)
      modifies this`validationErrors
      ensures validationErrors == old(validationErrors)[field := []]
    {
      validationErrors := validationErrors[field := []];
    }

    /** `handleCopy`: the toast shows; the clipboard write is not awaited. */
    method Copy()
      modifies this`copied
      ensures copied
    {
      copied := true;
    }

    /** The two-second timer of `handleCopy`. */
    method CopyExpired()
      modifies this`copied
      ensures !copied
    {
      copied := false;
    }

    /** `openFeedbackModal(outputType)`, reached by a thumbs-down. */
    method OpenFeedbackModal(outputType: String)
      modifies this`selectedOutput, this`isModalOpen, this`feedbackSubmitted
      ensures selectedOutput == outputType && isModalOpen && !feedbackSubmitted
    {
      selectedOutput := outputType;
      isModalOpen := true;
      feedbackSubmitted := false;
    }

    /** `closeModal`. */
    method CloseModal()
      modifies this`isModalOpen, this`feedbackOption, this`customFeedback, this`feedbackSubmitted
      ensures !isModalOpen && feedbackOption == [] && customFeedback == [] && !feedbackSubmitted
    {
      isModalOpen := false;
      feedbackOption := [];
      customFeedback := [];
      feedbackSubmitted := false;
    }

    /** The dialog's `onFeedbackOptionChange` and `onCustomFeedbackChange`. */
    method SetFeedbackOption(option: String)
      modifies this`feedbackOption
      ensures feedbackOption == option
    {
      feedbackOption := option;
    }

    method SetCustomFeedback(text: String)
      modifies this`customFeedback
      ensures customFeedback == text
    {
      customFeedback := text;
    }

    /** `submitFeedback`: the submission is only logged; the note shows. */
    method SubmitFeedback()
      modifies this`feedbackSubmitted
      ensures feedbackSubmitted
    {
      feedbackSubmitted := true;
    }

    /** The 1.5-second timer of `submitFeedback`, which calls `closeModal`. */
    method FeedbackExpired()
      modifies this`isModalOpen, this`feedbackOption, this`customFeedback, this`feedbackSubmitted
      ensures !isModalOpen && feedbackOption == [] && customFeedback == [] && !feedbackSubmitted
    {
      CloseModal();
    }

    /** `downloadAllFiles`: the files handed to `downloadFile`, in order. */
    method DownloadAll() returns (downloads: seq<GeneratedFile>)
      ensures downloads == Filter(generatedFiles, IsCompleted)
      ensures forall i :: 0 <= i < |downloads| ==> downloads[i].status == "completed"
    {
      downloads := [];
      var i := 0;
      while i < |generatedFiles|
        invariant 0 <= i <= |generatedFiles|
        invariant downloads == Filter(generatedFiles[..i], IsCompleted)
      {
        var file := generatedFiles[i];
        assert generatedFiles[..i + 1] == generatedFiles[..i] + [file];
        FilterSnoc(generatedFiles[..i], file, IsCompleted);
        if file.status == "completed" {
          downloads := downloads + [file];
        }
        i := i + 1;
      }
      assert generatedFiles[..i] == generatedFiles;
    }
  }

  /** Distinct formats give distinct records: their types differ in the first letter. */
  lemma FileForInjective()
    ensures forall a, b :: FileFor(a) == FileFor(b) ==> a == b
  {
    assert FileFor(Bpmn).fileType[0] == 'b';
    assert FileFor(ProcessDoc).fileType[0] == 'p';
    assert FileFor(TrainingScript).fileType[0] == 't';
  }
}
