# Content-generation UI: a Dafny model of its decision rules

The content-generation UI is a React client. A user types a meeting transcript or attaches transcript files, picks the outputs to generate (a BPMN diagram, a process document, a training script), and reads back the analysis a model produced. A settings area manages "modifiers": named, ordered prompt ingredients with a status, values and prompts. A core system prompt lives behind the same prompt API.

This project models the rules inside that client's handlers and services:

- **Services.**
  - The prompt service's request helper: header merge, error-message choice, empty responses and network-error rewording.
  - The argument checks of the prompt API.
  - The analysis service's multipart request and the classification of its answer.
- **Analysis view.**
  - Fenced-block extraction.
  - The `### N. ` split of a model response.
  - Classification of parts by title, and the section built for each.
  - Which panels are shown, and the copy-button state.
- **Generation form and dashboard.**
  - Validation; the extension allow-list; typed text and files excluding each other.
  - Splice, toggle and focus updates; the generated-file list.
  - The button predicates.
- **Settings.**
  - The sequence dialog's per-edit validation and duplicate test.
  - Name and value uniqueness; replace-by-id and delete-by-id.
  - Status toggling and the in-place sort by sequence.
  - The guards, payloads and callback order of the two prompt dialogs.
- **Presentation rules.** The results table's icon, label and status mark, and the feedback dialog's submit rule.

How the browser is modelled:

- Each handler is a method of a class holding that component's state, and each call is one state transition. A pending timer is either run at once or modelled as a separate method for its callback.
- The network is an outcome parameter.
- Calls of `alert`, `onAdd`, `onUpdate` and `onClose` are an ordered list of events that a handler returns.
- JavaScript semantics the code depends on live in helper modules and are stated as lemmas:
  - `trim` with the ECMAScript white-space set;
  - `split`, `join`, `includes` and `indexOf`;
  - `toLowerCase` (ASCII letters only);
  - `parseInt` and `Number` on strings;
  - truthiness, and property access that throws on `null`;
  - `String(v)` and printing of integers.

Modules:

| module | models |
|---|---|
| `Wrappers`, `Seqs` | option/result values; `filter` and subsequences |
| `JsText`, `JsNumber`, `Json` | the JavaScript string, number and value semantics listed above |
| `PromptService` | `src/services/promptService.js` |
| `AnalysisService` | `src/services/analysisService.js` |
| `AnalysisResults` | `src/components/features/results/AnalysisResults.jsx` |
| `OutputFormats`, `BrowserFiles` | the format flags and `File` records shared by the form, the dashboard and the table |
| `GenerationForm` | `src/components/features/GenerationForm.jsx` |
| `ActionButtons` | `src/components/features/input/ActionButtons.jsx` |
| `Dashboard` | `src/pages/Dashboard.jsx` |
| `ResultsTable` | `src/components/features/results/ResultsTable.jsx` |
| `FeedbackModal` | `src/components/modals/FeedbackModal.jsx` |
| `Modifiers` | the modifier and value records of the settings screens |
| `SequenceModal` | `src/components/features/settings/SequenceModal.jsx` |
| `ModifierOption` | `src/components/features/settings/Option.jsx` |
| `AddModifierModal` | `src/components/features/settings/AddModifierModal.jsx` |
| `EditModifierModal` | `src/components/features/settings/EditModifierModal.jsx` |
| `PromptModal` | `src/components/features/settings/PromptModal.jsx` |
| `SettingsPage` | `src/pages/SettingsPage.jsx` |

## Model

| member | source | states |
|---|---|---|
| PromptService.ConfigFor | src/services/promptService.js:10-22 | the config keeps the caller's method and body; credentials are always 'omit'; the header keys are the defaults' plus the caller's, a caller header wins, and a default survives only where the caller has none |
| PromptService.NoCallerHeaders | src/services/promptService.js:10-19 | without caller headers the request carries exactly the three default headers |
| PromptService.ErrorMessageOf | src/services/promptService.js:33-46 | the message picked by reassignment across the inner try/catch equals `FailureMessage`: truthy detail, else truthy message, else the status message; when the body does not parse, or is `null`, the status text if non-empty, else the status message |
| PromptService.FallbackNamesStatus | src/services/promptService.js:35 | when the server gives nothing usable, the message starts with "API request failed with status: " and `parseInt` of the rest reads the status back |
| PromptService.DetailWins | src/services/promptService.js:39 | a truthy `detail` decides the message whatever the status and status text are |
| PromptService.Rewrap | src/services/promptService.js:55-64 | a TypeError whose message contains "fetch" becomes the fixed network-error message; every other error is rethrown unchanged |
| PromptService.RewrapIdempotent | src/services/promptService.js:58-63 | the network message is not reworded a second time |
| PromptService.ApiResult | src/services/promptService.js:8-65 | `apiRequest` resolves exactly for an ok response that is empty (204 or Content-Length "0") or parses. An empty ok response gives `{message: 'Success'}` without its body being read; a parsed one gives its body. A non-ok response rejects with the chosen message; fetch and body-parse errors reject reworded by `Rewrap` |
| PromptService.ApiRequest | src/services/promptService.js:8-27 | the request goes to the base URL plus the endpoint, with the merged config, and settles to `ApiResult` |
| PromptService.GetPrompts | src/services/promptService.js:91-93 | a GET of `/prompts` with no body |
| PromptService.CreatePrompt | src/services/promptService.js:96-106 | refused before any request when the data is falsy ("New prompt data is required") or its name is falsy ("Prompt name is required"); otherwise a POST of `/prompts` carrying the data, and only then |
| PromptService.DeletePrompt | src/services/promptService.js:109-114 | refused before any request exactly when the id is falsy; otherwise a DELETE of `/prompts/<id>` with no body |
| PromptService.UpdatePrompt | src/services/promptService.js:117-127 | refused before any request when the id is falsy (0 included), or when the fields are falsy or have no keys, each with its own message; otherwise a PATCH of `/prompts/<id>` carrying the fields, and only then |
| PromptService.SingleFieldAccepted | src/services/promptService.js:119-121 | an object with one key passes the fields check |
| PromptService.ZeroIdNeverSent | src/services/promptService.js:118 | an update of id 0 is always refused with "promptId is required for PATCH", whatever the fields and the server |
| PromptService.UpdatePromptCorrected | src/services/promptService.js:117-127 | the intended update: sent exactly when the id is present (not null or undefined) and the fields are non-empty, as a PATCH of `/prompts/<id>` |
| PromptService.CorrectedUpdateSendsZero | src/services/promptService.js:118 | the corrected update sends id 0 to `/prompts/0`, and it agrees with the original on every truthy id |
| PromptService.UpdatePromptTokenLimit | src/services/promptService.js:145-165 | rejects with "Token limit data is required" exactly when the data is falsy or its `limit` is undefined; otherwise resolves to a record whose `limit` is the one given |
| PromptService.TestConnection | src/services/promptService.js:68-86 | a GET of `/health` with only the ngrok and Accept headers, no Content-Type, no body and credentials 'omit'; the result is true exactly for an ok response, and a rejected fetch gives false |
| Json.ObjectListString | src/services/promptService.js:39-45 | a `detail` that is a list of objects reaches the error message as "[object Object],[object Object]" |
| AnalysisService.FormFor | src/services/analysisService.js:15-27 | a file, if given, is the transcript part; otherwise non-empty text travels as `transcript.txt`; with neither there is no transcript part; the outputs part always comes last |
| AnalysisService.FileTakesPrecedence | src/services/analysisService.js:18-24 | with a file attached, the typed text is not sent and makes no difference |
| AnalysisService.BuildForm | src/services/analysisService.js:15-27 | the successive appends build exactly `FormFor` |
| AnalysisService.ErrorDetailsOf | src/services/analysisService.js:35-55 | the error record carries the status and status text. Its detail is detail, else message, else "HTTP N: text"; for a body that does not parse, it is "HTTP N: text", with 'Unknown error' for an empty text |
| AnalysisService.CaughtError | src/services/analysisService.js:82-92 | a thrown error gives its message as detail, or the fixed network fallback for an empty one, and its name as `originalError` |
| AnalysisService.Classify | src/services/analysisService.js:13-94 | success exactly for an ok, parsed response with a truthy `output`, and then data is that output. A non-ok response gives the error record; an ok response without output gives 'Invalid response format from server'; a thrown error, or a body that does not parse, gives `CaughtError` |
| AnalysisService.FailureHasDetail | src/services/analysisService.js:43-91 | every failure carries a truthy detail |
| AnalysisService.SuccessHasData | src/services/analysisService.js:68-80 | every success carries truthy data |
| AnalysisService.AnalyzeTranscript | src/services/analysisService.js:13-94 | sends a POST of `/analyze` with `FormFor`'s parts and resolves to `Classify` of the outcome: it never rejects |
| AnalysisResults.MatchFromIsFirstBlock | src/components/features/results/AnalysisResults.jsx:34-37 | the regular-expression scan yields exactly the text between the first opener and the first closer after it, or nothing when either is missing |
| AnalysisResults.ExtractCodeSpec | src/components/features/results/AnalysisResults.jsx:24-37 | `extractCodeFromMarkdown(t, lang)` is the first-block reading for the opener "```lang\n"; the json and xml extractors are the same expression for "json" and "xml" |
| AnalysisResults.ExtractedHasNoCloser | src/components/features/results/AnalysisResults.jsx:25 | an extracted body never contains the closing "\n```" |
| AnalysisResults.RemoveAll | src/components/features/results/AnalysisResults.jsx:76 | the global replace keeps a subsequence of the text, and leaves a text without any of the patterns unchanged |
| AnalysisResults.IntroNeverContributes | src/components/features/results/AnalysisResults.jsx:43-46 | text in front of the first `### N. ` heading never changes the sections |
| AnalysisResults.TitleAndContent | src/components/features/results/AnalysisResults.jsx:48-50 | the title is the trimmed first line; the content is the trimmed text after the first line break, and empty when there is none |
| AnalysisResults.ClassifyFirstMatch | src/components/features/results/AnalysisResults.jsx:53-89 | a title has kind k exactly when it contains k's marker and no earlier kind's marker, in the order SUMMARY TABLE, BPMN SWIMLANE DIAGRAM, PROCESS DESCRIPTION DOCUMENT, SYNTHESIA SCRIPT, SYNTHESIA MEDIA MAPPING |
| AnalysisResults.ClassifyAtMost | src/components/features/results/AnalysisResults.jsx:53-89 | a title containing k's marker is classified as k or as an earlier kind whose marker it contains |
| AnalysisResults.ClassifyNone | src/components/features/results/AnalysisResults.jsx:53-89 | a part is dropped exactly when its title contains none of the five markers |
| AnalysisResults.SectionFor | src/components/features/results/AnalysisResults.jsx:55-87 | every section's `raw` is the part's content |
| AnalysisResults.JsonDisplay | src/components/features/results/AnalysisResults.jsx:53-59 | the summary and process-document sections keep the first json body and pretty-print it when it is non-empty; otherwise they show the content |
| AnalysisResults.BpmnDisplay | src/components/features/results/AnalysisResults.jsx:60-66 | the BPMN display is the first xml body when that body is non-empty, and the whole content otherwise |
| AnalysisResults.ScriptText | src/components/features/results/AnalysisResults.jsx:74-81 | the script text is the content with the markers removed, character order kept. Its display equals its text. Content with no fence and no `#### ` is kept unchanged |
| AnalysisResults.LatestSpec | src/components/features/results/AnalysisResults.jsx:40-90 | after n assignments to the sections object, a key is present exactly when one of them set it, and it holds the value of the last such one |
| AnalysisResults.ParseAnalysisOutput | src/components/features/results/AnalysisResults.jsx:39-93 | the forEach visit, skipping index 0, builds exactly `Sections(output)` |
| AnalysisResults.ReadPart | src/components/features/results/AnalysisResults.jsx:48-89 | one visit classifies the part by its title and builds that kind's section from its content |
| AnalysisResults.LastPartWins | src/components/features/results/AnalysisResults.jsx:45-90 | a kind has a section exactly when some part after the intro has that kind, and the section comes from the last such part |
| AnalysisResults.Render | src/components/features/results/AnalysisResults.jsx:134-136 | an empty output renders nothing, and any other output renders a view |
| AnalysisResults.RenderVisibility | src/components/features/results/AnalysisResults.jsx:145-246 | the summary panel ignores the selected formats. Every other panel shows exactly when its flag is set and its section exists, and the training container shows exactly when one of its two panels does. Each shown panel carries its section's display |
| AnalysisResults.NothingSelectedOnlySummary | src/components/features/results/AnalysisResults.jsx:168-214 | with no format selected, or no formats prop at all, only the summary can show |
| AnalysisResults.CopyTracker.Copy | src/components/features/results/AnalysisResults.jsx:8-22 | after a successful clipboard write the section id is added to the copied set; a failed write changes nothing |
| AnalysisResults.CopyTracker.CopyExpired | src/components/features/results/AnalysisResults.jsx:12-18 | the timer removes that id again, so its button no longer shows "Copied!" |
| OutputFormats.Toggle | src/components/features/GenerationForm.jsx:151-156 | only the flag of the chosen format changes, and it flips |
| OutputFormats.ToggleTwice | src/components/features/GenerationForm.jsx:151-156 | flipping a format twice restores the selection |
| OutputFormats.ToggleCommutes | src/components/features/GenerationForm.jsx:151-156 | flips of two formats commute |
| BrowserFiles.ExtensionSpec | src/components/features/GenerationForm.jsx:126 | the extension is the lowercased, dot-free suffix after the last dot; a name without a dot is its own extension |
| BrowserFiles.ExtensionAfterLastDot | src/components/features/GenerationForm.jsx:126 | only what follows the last dot matters |
| GenerationForm.ValidationErrors | src/components/features/GenerationForm.jsx:45-53 | a transcript error exactly when the trimmed text is empty and no file is attached; a format error exactly when no format is selected; no other keys, each with its message |
| GenerationForm.DotlessName | src/components/features/GenerationForm.jsx:124-128 | a name without a dot is accepted exactly when the lowercased name is txt, pdf, doc or docx |
| GenerationForm.SupportedByLastSegment | src/components/features/GenerationForm.jsx:124-128 | `stem.ext` is accepted exactly when the lowercased ext is on the allow-list, whatever the stem |
| GenerationForm.PushSelected | src/components/features/GenerationForm.jsx:63-90 | the three conditional pushes build the records of the selected formats in push order |
| GenerationForm.GeneratedFilesSpec | src/components/features/GenerationForm.jsx:63-95 | a format's record is in the generated list exactly when the format is selected. Every record is 'completed', and no record appears twice |
| GenerationForm.SpliceOne | src/components/features/GenerationForm.jsx:143-149 | `splice(index, 1)` on a copy: an index in range removes that element; an index past the end removes nothing; a negative index counts from the end, clamped to 0 |
| GenerationForm.RemoveAtKeepsOthers | src/components/features/GenerationForm.jsx:146 | removing position i keeps every other element in order |
| GenerationForm.WhitespaceTranscript | src/components/features/GenerationForm.jsx:47 | a transcript of white space alone enables the Generate button (untrimmed test) and yet has the form refuse it (trimmed test) |
| GenerationForm.Form.constructor | src/components/features/GenerationForm.jsx:11-42 | the initial state is the cleared state, with the dialog closed and no feedback |
| GenerationForm.Form.Generate | src/components/features/GenerationForm.jsx:44-102 | the error map is `ValidationErrors`. With no errors the generated list is `FilesOf(SelectedKeys(...))` and generation has ended; otherwise the list and the flag are untouched. Text and files still exclude each other |
| GenerationForm.Form.Clear | src/components/features/GenerationForm.jsx:104-114 | every input is back to its initial value; afterwards Clear All shows its inactive style and Generate is disabled |
| GenerationForm.Form.InputTranscriptChange | src/components/features/GenerationForm.jsx:116-121 | typing stores the text and empties the attached and the generated files |
| GenerationForm.Form.FileChange | src/components/features/GenerationForm.jsx:123-141 | a batch whose files are all supported is appended in order, clearing the text, the generated files and the error. Any unsupported file sets the error and leaves the files, the text and the generated list unchanged |
| GenerationForm.Form.RemoveFile | src/components/features/GenerationForm.jsx:143-149 | the attached files become `SpliceOne` of the old ones |
| GenerationForm.Form.FormatChange | src/components/features/GenerationForm.jsx:151-156 | the selection becomes `Toggle` of the old one |
| GenerationForm.Form.Copy | src/components/features/GenerationForm.jsx:158-160 | the copied toast shows |
| GenerationForm.Form.CopyExpired | src/components/features/GenerationForm.jsx:161 | the toast's timer hides it |
| GenerationForm.Form.OpenFeedbackModal | src/components/features/GenerationForm.jsx:164-168 | the dialog opens for that output, not yet submitted |
| GenerationForm.Form.CloseModal | src/components/features/GenerationForm.jsx:170-175 | the dialog closes with its option, text and submitted note cleared |
| GenerationForm.Form.SetFeedbackOption | src/components/features/GenerationForm.jsx:277 | the dialog's option change is stored |
| GenerationForm.Form.SetCustomFeedback | src/components/features/GenerationForm.jsx:278 | the dialog's text change is stored |
| GenerationForm.Form.SubmitFeedback | src/components/features/GenerationForm.jsx:177-180 | the submitted note shows |
| GenerationForm.Form.FeedbackExpired | src/components/features/GenerationForm.jsx:181-183 | the timer closes the dialog as `closeModal` does |
| GenerationForm.Form.Focus | src/components/features/GenerationForm.jsx:207-209 | focusing a field sets only that field's message to "" |
| GenerationForm.Form.DownloadAll | src/components/features/GenerationForm.jsx:199-205 | the files downloaded are exactly the completed ones, in list order |
| ActionButtons.GenerateLabel | src/components/features/input/ActionButtons.jsx:34 | the label is "Generating..." exactly while generating |
| ActionButtons.StyleMatchesDisabled | src/components/features/input/ActionButtons.jsx:27-29 | the enabled style is shown exactly when the button is not disabled |
| ActionButtons.DisabledWhileGenerating | src/components/features/input/ActionButtons.jsx:27 | the button is disabled while generating, whatever the input |
| ActionButtons.WhitespaceEnables | src/components/features/input/ActionButtons.jsx:27 | a transcript of white space alone enables the button, because the test does not trim |
| Dashboard.IconFor | src/pages/Dashboard.jsx:11-19 | the PDF, Word, Excel and PowerPoint icons are chosen exactly for pdf, doc/docx, xls/xlsx and ppt/pptx as the lowercased last extension; anything else gets the generic icon |
| Dashboard.IconByLastExtension | src/pages/Dashboard.jsx:12 | the icon of `stem.ext` is the icon of the lowercased ext, whatever the stem |
| Dashboard.EntryFor | src/pages/Dashboard.jsx:31-37 | an upload entry copies the file's name, size and type and carries the given id |
| Dashboard.WithoutId | src/pages/Dashboard.jsx:41-43 | removal keeps exactly the entries with another id, in order |
| Dashboard.UploadThenRemove | src/pages/Dashboard.jsx:29-43 | removing the fresh id of an uploaded file restores the earlier list |
| Dashboard.CountReadBack | src/pages/Dashboard.jsx:49 | the file count can be read back from the generated text |
| Dashboard.GeneratedTextInjective | src/pages/Dashboard.jsx:49 | different texts or file counts give different generated contents |
| Dashboard.WhitespaceDisablesHere | src/pages/Dashboard.jsx:139 | white space alone disables the dashboard's Generate (trimmed test) but enables the form's (untrimmed test) |
| Dashboard.Page.constructor | src/pages/Dashboard.jsx:6-9 | the page starts with no files, no text, no content and not generating |
| Dashboard.Page.SetText | src/pages/Dashboard.jsx:72 | the textarea stores the text |
| Dashboard.Page.FileUpload | src/pages/Dashboard.jsx:29-39 | one entry per file is appended after the existing ones, in order, each made by `EntryFor` with its id |
| Dashboard.Page.RemoveFile | src/pages/Dashboard.jsx:41-43 | the list becomes `WithoutId` of the old one |
| Dashboard.Page.Generate | src/pages/Dashboard.jsx:45-48 | the flag goes up and the timer captures the current text and file count |
| Dashboard.Page.GenerationFinished | src/pages/Dashboard.jsx:48-51 | the captured values fill the template, the flag drops and the results stay shown |
| Dashboard.Page.ClearAll | src/pages/Dashboard.jsx:54-58 | text, files and content are emptied; the results panel stays only while generating |
| ResultsTable.IconFor | src/components/features/results/ResultsTable.jsx:15-26 | types other than bpmn, processDoc and trainingScript, and only those, get the default icon |
| ResultsTable.StatusFor | src/components/features/results/ResultsTable.jsx:54-58 | the check mark exactly for 'completed', the cross otherwise |
| ResultsTable.TypeLabel | src/components/features/results/ResultsTable.jsx:49 | the label is one character longer per ASCII upper-case letter, and a type without one is unchanged |
| ResultsTable.TypeLabelPlaces | src/components/features/results/ResultsTable.jsx:49 | character i of the type sits in the label after the i characters and the inserted spaces before it; an ASCII upper-case letter is shifted one further, with a space immediately in front of it |
| ResultsTable.LabelWithoutSpaces | src/components/features/results/ResultsTable.jsx:49 | for a type without spaces, deleting the label's spaces gives the type back |
| ResultsTable.Rows | src/components/features/results/ResultsTable.jsx:44-78 | one row per file, in list order |
| FeedbackModal.Render | src/components/modals/FeedbackModal.jsx:15-64 | nothing is rendered unless open. The textarea shows exactly for "Other", the success note exactly once submitted, and Submit is disabled by `SubmitDisabled` |
| FeedbackModal.SubmitRule | src/components/modals/FeedbackModal.jsx:56 | Submit is disabled with no option chosen. With "Other" it is disabled exactly when the text is empty. Any other option enables it |
| FeedbackModal.CustomTextOnlyForOther | src/components/modals/FeedbackModal.jsx:56 | the free text matters only for "Other" |
| FeedbackModal.ListedOptions | src/components/modals/FeedbackModal.jsx:29-34 | each listed option other than the placeholder and "Other" enables Submit |
| SequenceModal.Decide | src/components/features/settings/SequenceModal.jsx:30-58 | an edit has no error exactly when the duplicate test runs. Then the stored value is a number of at least 1 that equals `parseInt` of the input, the input is not above the count, and it is not blank. Otherwise exactly one rejection applies, tested in order. An input above the count (by `Number`) gets the range message and is kept as typed. A blank input gets "Please provide a value" and stores ''. A `parseInt` of NaN gets "Please provide a valid number" and stores ''. A parsed value of 0 or less gets "Please provide positive values" and stores that number |
| SequenceModal.DecideOn | src/components/features/settings/SequenceModal.jsx:34-51 | the same guarantees, message by message and with the value stored, for the branch chain over the three conversions of the input |
| SequenceModal.BlankEntry | src/components/features/settings/SequenceModal.jsx:34-41 | blank input is never "too large" (it converts to 0); it stores '' with "Please provide a value" |
| SequenceModal.WholeNumberEntry | src/components/features/settings/SequenceModal.jsx:32-51 | a whole number typed as digits is accepted, as a number, exactly when it lies in 1..count. A larger one keeps the typed string with the range error, and 0 gets the positivity error |
| SequenceModal.ComparableValues | src/components/features/settings/SequenceModal.jsx:53-55 | the filter keeps exactly the values that are neither '' nor NaN |
| SequenceModal.HasDuplicateIff | src/components/features/settings/SequenceModal.jsx:56 | the indexOf test holds exactly when two positions carry equal values |
| SequenceModal.Apply | src/components/features/settings/SequenceModal.jsx:31-59 | only the edited row changes, and the list keeps its length. An error clears the duplicate flag; without one, the flag says whether two comparable sequences are equal |
| SequenceModal.Modal.constructor | src/components/features/settings/SequenceModal.jsx:8-28 | the dialog holds the caller's row objects, with no error, no duplicate and not loading |
| SequenceModal.Modal.SequenceChange | src/components/features/settings/SequenceModal.jsx:30-60 | the row object is written in place, and the dialog's state becomes `Change` of the old state |
| SequenceModal.Modal.Store | src/components/features/settings/SequenceModal.jsx:35-59 | the decided value goes into the row, the error into the dialog, and the duplicate test runs over all rows only when there is no error |
| SequenceModal.Modal.Save | src/components/features/settings/SequenceModal.jsx:62-64 | saving raises the loading flag |
| SequenceModal.Modal.SaveFinished | src/components/features/settings/SequenceModal.jsx:67-71 | the timer alerts "Sequence Updated Successfully!", drops the loading flag and calls `onClose`, in that order |
| SequenceModal.StaleRangeError | src/components/features/settings/SequenceModal.jsx:126 | the save guard as written can be enabled while a row holds an out-of-range value |
| SequenceModal.CorrectedSaveMeansValidOrder | src/components/features/settings/SequenceModal.jsx:126 | with the guard taken over all rows, an enabled Save means every row holds a distinct whole number in 1..rows |
| ModifierOption.FormOf | src/components/features/settings/Option.jsx:12-16 | the form starts from the option's value, system prompt and user prompt |
| ModifierOption.WithField | src/components/features/settings/Option.jsx:18-23 | only the named field takes the new text |
| ModifierOption.ExistingValueIff | src/components/features/settings/Option.jsx:34-36 | the uniqueness check refuses exactly a new value, different from the option's own, that another entry already has |
| ModifierOption.Rejection | src/components/features/settings/Option.jsx:29-40 | a blank field gives "All fields are required", a taken value "Value already exists", and otherwise there is no rejection |
| ModifierOption.Edited | src/components/features/settings/Option.jsx:46-51 | the edited option takes the form's three texts and keeps its id and every other field |
| ModifierOption.ReplaceById | src/components/features/settings/Option.jsx:53-58 | every entry with the option's id is replaced, all others are kept, and the length is preserved |
| ModifierOption.DeleteById | src/components/features/settings/Option.jsx:82 | exactly the entries with another id are kept, in order |
| ModifierOption.DeleteAfterReplace | src/components/features/settings/Option.jsx:53-82 | deleting a value after editing it equals deleting it unedited |
| ModifierOption.EditKeepsValuesDistinct | src/components/features/settings/Option.jsx:34-60 | an edit that passes the check keeps the values of a list with distinct values and ids distinct |
| ModifierOption.Row.constructor | src/components/features/settings/Option.jsx:7-16 | the row starts out of edit mode, not loading, with `FormOf(option)` |
| ModifierOption.Row.UserDefinedLocked | src/components/features/settings/Option.jsx:116-141 | for the 'User Defined' value, the delete button and the value input are disabled |
| ModifierOption.Row.InputChange | src/components/features/settings/Option.jsx:18-23 | the form becomes `WithField` of the old form |
| ModifierOption.Row.ToggleEditing | src/components/features/settings/Option.jsx:109 | the pencil flips edit mode |
| ModifierOption.Row.CancelEdit | src/components/features/settings/Option.jsx:94-101 | edit mode ends and the form is reset to the option's texts |
| ModifierOption.Row.Submit | src/components/features/settings/Option.jsx:25-72 | a blank field, or a taken value, alerts and leaves the list, edit mode and the loading flag unchanged. Otherwise the list becomes the replace-by-id of the edited option, edit mode ends and "Value Updated!" is shown |
| ModifierOption.Row.Delete | src/components/features/settings/Option.jsx:74-92 | nothing changes unless the user confirms; then the list becomes the delete-by-id and "Value deleted!" is shown |
| AddModifierModal.FindByName | src/components/features/settings/AddModifierModal.jsx:37-39 | finds a modifier with exactly that name (untrimmed), or reports that none has it |
| AddModifierModal.NewModifierFor | src/components/features/settings/AddModifierModal.jsx:48-54 | the record has the name as typed, status 'active', no values and sequence count + 1; an empty description becomes 'New modifier description' |
| AddModifierModal.CreateEvents | src/components/features/settings/AddModifierModal.jsx:31-67 | a blank name alerts "Please provide modifier name" and an existing name "Modifier Already Exists"; otherwise the new record is added, "Modifier Created!" is shown and the dialog closes, in that order |
| AddModifierModal.AddedOnlyWhenAccepted | src/components/features/settings/AddModifierModal.jsx:42-57 | `onAdd` runs exactly once on the accepted path and never otherwise |
| AddModifierModal.AcceptedIsFresh | src/components/features/settings/AddModifierModal.jsx:37-52 | an accepted record's name is new, and with sequences in 1..n its sequence n + 1 is unused |
| AddModifierModal.PaddedNameAccepted | src/components/features/settings/AddModifierModal.jsx:32-38 | the name comparison is untrimmed: an existing name followed by a space is accepted as a new modifier |
| AddModifierModal.Dialog.constructor | src/components/features/settings/AddModifierModal.jsx:8-10 | the dialog starts empty and not loading |
| AddModifierModal.Dialog.SetTitle | src/components/features/settings/AddModifierModal.jsx:98 | the name input stores its text |
| AddModifierModal.Dialog.SetDescription | src/components/features/settings/AddModifierModal.jsx:111 | the description textarea stores its text |
| AddModifierModal.Dialog.Create | src/components/features/settings/AddModifierModal.jsx:31-67 | the events are `CreateEvents` of the dialog's texts; the flag ends lowered on the accepted path and is untouched otherwise |
| EditModifierModal.PromptIdOf | src/components/features/settings/EditModifierModal.jsx:36 | `modifier.prompt_id`, undefined when the field is missing |
| EditModifierModal.SaveEventsWith | src/components/features/settings/EditModifierModal.jsx:27-55 | blank content alerts "Content is required". The dialog closes exactly when the update succeeds. `onUpdate` runs exactly when the update succeeds and it was given, and then before the close. A failed update alerts its message |
| EditModifierModal.SaveSendsTrimmedTexts | src/components/features/settings/EditModifierModal.jsx:36-39 | a truthy id gets its PATCH, at that id's path, with the trimmed content and description |
| EditModifierModal.ZeroIdNeverSaved | src/components/features/settings/EditModifierModal.jsx:36 | a modifier whose prompt id is 0 is never saved: the dialog never closes |
| EditModifierModal.Report | src/components/features/settings/EditModifierModal.jsx:40-51 | after the guard, the events are `SaveEventsWith` for the settled update |
| EditModifierModal.Dialog.constructor | src/components/features/settings/EditModifierModal.jsx:8-10 | the fields start as the modifier's own content and description, or '' when those are falsy |
| EditModifierModal.Dialog.SetContent | src/components/features/settings/EditModifierModal.jsx:97 | the content textarea stores its text |
| EditModifierModal.Dialog.Save | src/components/features/settings/EditModifierModal.jsx:27-55 | the events are `SaveEvents`; blank content returns before the loading flag is raised, and otherwise the flag ends lowered |
| PromptModal.FindCore | src/components/features/settings/PromptModal.jsx:34 | `find` stops at the first entry with `prompt_id === 0`, reports no match when there is none, and throws at a `null` entry reached first |
| PromptModal.CoreLookup | src/components/features/settings/PromptModal.jsx:33-34 | a core prompt found has id 0 and is an entry of the list that `getPrompts` resolved to |
| PromptModal.FirstCoreWins | src/components/features/settings/PromptModal.jsx:34 | of two prompts with id 0, the first is chosen |
| PromptModal.TextOr | src/components/features/settings/PromptModal.jsx:37-38 | a string field is taken as it is, and a falsy or missing one becomes '' |
| PromptModal.UpdatePayload | src/components/features/settings/PromptModal.jsx:72-75 | the payload has exactly the keys content and description, holding the trimmed texts |
| PromptModal.PayloadHasFields | src/components/features/settings/PromptModal.jsx:72-75 | the payload always passes the service's fields check |
| PromptModal.SaveEventsWith | src/components/features/settings/PromptModal.jsx:58-87 | blank content alerts "Please provide a prompt content" and a missing id "Core prompt not found". `onAdd` runs exactly when both guards pass and the update succeeds. A failed update alerts its message |
| PromptModal.SaveNeverSucceeds | src/components/features/settings/PromptModal.jsx:64-83 | since the only id the dialog can hold is 0, a save never reaches `onAdd`; with content it alerts the service's refusal |
| PromptModal.CorrectedSaveSucceeds | src/components/features/settings/PromptModal.jsx:72-79 | with the corrected service and an empty ok answer (204 or Content-Length "0"), the save passes the texts as typed to `onAdd`, closes, then reports success |
| PromptModal.Report | src/components/features/settings/PromptModal.jsx:69-83 | after the guards, the events are `SaveEventsWith` for the settled update |
| PromptModal.Dialog.constructor | src/components/features/settings/PromptModal.jsx:7-12 | the dialog starts empty, with no id, fetching and not loading |
| PromptModal.Dialog.SetContent | src/components/features/settings/PromptModal.jsx:137 | the textarea stores its text |
| PromptModal.Dialog.FetchCorePrompt | src/components/features/settings/PromptModal.jsx:27-56 | with a core prompt, the fields take its texts (or '') and the id becomes 0. Without one, or on any failure, the fields are emptied and the id is kept. Fetching ends either way |
| PromptModal.Dialog.Save | src/components/features/settings/PromptModal.jsx:58-87 | the events are `SaveEvents`; the guards return before the loading flag is raised, and otherwise the flag ends lowered |
| SettingsPage.Flip | src/pages/SettingsPage.jsx:65 | 'active' becomes 'inactive' and anything else becomes 'active' |
| SettingsPage.ToggleStatusOf | src/pages/SettingsPage.jsx:61-69 | every modifier with that name has its status flipped; all others are unchanged, and length and order are kept |
| SettingsPage.ToggleTwice | src/pages/SettingsPage.jsx:63-66 | toggling a name twice restores any list whose statuses are 'active' or 'inactive' |
| SettingsPage.OtherStatusLost | src/pages/SettingsPage.jsx:65 | any other status is lost: two toggles leave 'inactive' |
| SettingsPage.InitialToggleTwice | src/pages/SettingsPage.jsx:18-69 | the initial five modifiers survive a double toggle unchanged |
| SettingsPage.SortBySequence | src/pages/SettingsPage.jsx:164 | the array is sorted in place by sequence, as a permutation of itself; an already sorted array is left unchanged |
| SettingsPage.Page.constructor | src/pages/SettingsPage.jsx:14-49 | the page starts with the five listed modifiers, the limit 4000, and not editing |
| SettingsPage.Page.ToggleStatus | src/pages/SettingsPage.jsx:61-69 | the state becomes a new array holding `ToggleStatusOf` of the old list |
| SettingsPage.Page.ShowModifiers | src/pages/SettingsPage.jsx:163-165 | rendering sorts the state array in place and shows it in sequence order, as a permutation of the list |
| SettingsPage.Page.StartEditingLimit | src/pages/SettingsPage.jsx:123 | the pencil enters edit mode |
| SettingsPage.Page.SetTokenLimit | src/pages/SettingsPage.jsx:110 | the input stores the raw text |
| SettingsPage.Page.UpdateLimit | src/pages/SettingsPage.jsx:51-55 | confirming only leaves edit mode |

## Left out

- Browser I/O is not modelled: `fetch`, `FormData`, `Blob`, the clipboard, `alert`, `confirm`, `console` and object URLs. The network is an outcome parameter, and alerts and callbacks are returned as events.
- Asynchrony is not modelled: `setTimeout` delays, overlapping handlers, React state batching and re-renders. Each handler is one transition. A timer callback is either run at once or is a separate method.
- `JSON.parse` and `JSON.stringify` are not modelled. The summary and process-document display carries the extracted body in a `PrettyJson` marker. Request bodies are carried as the JSON value to be sent, and the outputs part of the analysis form as the list itself.
- `Json` has integer numbers only. IEEE doubles, their rounding and their printing are not modelled. `Number` is computed on exact reals, and `parseInt` on unbounded integers.
- `toLowerCase` changes only ASCII letters. Unicode case mapping is not modelled.
- `formatFileSize` on the dashboard is left out: it uses floating-point `Math.log`, `Math.pow` and `toFixed`.
- `getPromptTokenLimit` is left out as a separate operation. It resolves to a fixed record after a delay, and the model has that record as the constant `PromptService.MockTokenLimit`.
- The dashboard's ids (`Date.now() + Math.random()`) are supplied by the caller of `Dashboard.Page.FileUpload`.
- Response headers are read only through the Content-Length value. The case-insensitivity of header names is not modelled.
- `PromptService.ConfigFor`: `Options` carries only method, body and headers, the fields the callers pass. Other fields spread from the options are not modelled.
- `PromptService.ApiResult`: logging is not modelled.
- `PromptService.UpdatePromptTokenLimit`: the update is a local mock that is never sent, and the model reflects that.
- `GenerationForm.Form.Generate`: `generatedOutputs` is only ever reset, never read. The simulated wait is one step, so it cannot throw, and the catch branch that only logs is not modelled.
- `SequenceModal.Modal.SequenceChange`: the number input's own filtering of keystrokes is not modelled. The model takes whatever string the input delivers.
- `SettingsPage.SortBySequence`: stability is not stated. JavaScript's sort keeps modifiers with equal sequences in their earlier order; the contract promises only that the array ends sorted, is a permutation of itself, and is left unchanged when it was sorted already.
- `SequenceModal.Modal.SequenceChange` and `SequenceModal.Modal.Store` assume that the rows are distinct objects (`DistinctRows`), which the caller's list of modifiers does not guarantee. If one row object were listed twice, the in-place write would show in both entries; the model does not capture that aliasing.
- `SettingsPage.Page.constructor`: the initial records have no `values` field, and the model gives them the empty list. The initial limit 4000 is held as its text "4000", since the input stores strings.
- The SettingsPage handlers for editing, deleting, setting the sequence, opening the core prompt and adding a modifier only log, and are not modelled.
- `handleThumbsUp` in the generation form only logs, and is not modelled.
- `PromptModal.TextOr` and `EditModifierModal.Dialog.constructor`: a truthy non-string field is turned into text with `String(v)`. The source would keep the raw value in state.
- These catch branches cannot be reached once a timer is one transition, and are not modelled: "Failed to update value!", "Failed to delete value!", the add-modifier catch, and "Failed to Update Sequence".
- The click-outside listeners of the dialogs are not modelled. They only call `onClose`.
- The description in the core prompt dialog and in the modifier edit dialog is display only. There is no setter for it.
- `PromptService.DeletePrompt` has the same falsy-id check as the update. No screen deletes a prompt, so it has no finding of its own.
- A SettingsPage modifier's status may be any string. The double-toggle property is proved for 'active' and 'inactive', and what happens to other statuses is stated separately.

## Findings

| source | as written | input that shows it | evidently intended | confidence | as-written member | corrected member |
|---|---|---|---|---|---|---|
| src/services/promptService.js:118 | `if (!promptId)` refuses every falsy id, and so refuses 0. The core system prompt is looked up by `prompt_id === 0` (src/components/features/settings/PromptModal.jsx:34) and saved with that id (src/components/features/settings/PromptModal.jsx:72) | `updatePrompt(0, { content: 'x', description: '' })` throws "promptId is required for PATCH" before any request, so the core-prompt dialog always fails to save | refuse only a missing id (`null` or `undefined`), so that id 0 is sent to `/prompts/0` | not executed | PromptService.ZeroIdNeverSent, PromptModal.SaveNeverSucceeds, EditModifierModal.ZeroIdNeverSaved | PromptService.UpdatePromptCorrected, PromptService.CorrectedUpdateSendsZero, PromptModal.CorrectedSaveSucceeds |
| src/components/features/settings/SequenceModal.jsx:126 | Save is guarded by the error and duplicate flags of the last edit only, and each edit overwrites them | two rows with sequences 1 and 2: type 7 in the first row (range error), then 1 in the second; the first row keeps "7" and Save is enabled | Save is enabled only when every row holds a distinct whole number between 1 and the number of rows | not executed | SequenceModal.StaleRangeError | SequenceModal.SaveDisabledCorrected, SequenceModal.CorrectedSaveMeansValidOrder |
