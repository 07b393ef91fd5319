/** The analysis service: one multipart POST of the transcript and the chosen
    outputs, and the classification of whatever comes back into a success
    record or an error record that always carries a `detail`. */
module AnalysisService {
  import opened Wrappers
  import opened JsText
  import opened Json
  import opened BrowserFiles
  import opened PromptService

  /** One `formData.append`: a file, a text blob with a file name, or the
      outputs list (sent as its JSON text, which is not modelled). */
  datatype FormPart =
    | FilePart(name: String, file: BrowserFile)
    | TextPart(name: String, text: String, fileName: String)
    | OutputsPart(name: String, outputs: seq<String>)

  const TranscriptField: String := "transcript_file"
  const OutputsField: String := "selected_outputs"
  const TextFileName: String := "transcript.txt"

  /** A string argument that is present and not empty, i.e. truthy. */
  predicate HasText(transcript: Option<String>)
  {
    transcript.Some? && transcript.value != []
  }

  /** The form sent: a file wins over text, text travels as `transcript.txt`,
      and the outputs always come last. */
  function FormFor(transcript: Option<String>, transcriptFile: Option<BrowserFile>, selectedOutputs: seq<String>): (form: seq<FormPart>)
    ensures |form| == if transcriptFile.Some? || HasText(transcript) then 2 else 1
    ensures form[|form| - 1] == OutputsPart(OutputsField, selectedOutputs)
    ensures transcriptFile.Some? ==> form[0] == FilePart(TranscriptField, transcriptFile.value)
    ensures transcriptFile.None? && HasText(transcript) ==> form[0] == TextPart(TranscriptField, transcript.value, TextFileName)
  {
    var head :=
      if transcriptFile.Some? then [FilePart(TranscriptField, transcriptFile.value)]
      else if HasText(transcript) then [TextPart(TranscriptField, transcript.value, TextFileName)]
      else [];
    head + [OutputsPart(OutputsField, selectedOutputs)]
  }

  /** With a file attached, whatever text was typed is not sent. */
  lemma FileTakesPrecedence(t1: Option<String>, t2: Option<String>, f: BrowserFile, outputs: seq<String>)
    ensures FormFor(t1, Some(f), outputs) == FormFor(t2, Some(f), outputs)
    ensures forall k :: 0 <= k < |FormFor(t1, Some(f), outputs)| ==> !FormFor(t1, Some(f), outputs)[k].TextPart?
  {
  }

  /** The form is filled by successive appends. */
  method BuildForm(transcript: Option<String>, transcriptFile: Option<BrowserFile>, selectedOutputs: seq<String>)
    returns (form: seq<FormPart>)
    ensures form == FormFor(transcript, transcriptFile, selectedOutputs)
  {
    form := [];
    if transcriptFile.Some? {
      form := form + [FilePart(TranscriptField, transcriptFile.value)];
    } else if HasText(transcript) {
      form := form + [TextPart(TranscriptField, transcript.value, TextFileName)];
    }
    form := form + [OutputsPart(OutputsField, selectedOutputs)];
  }

  datatype AnalysisRequest = AnalysisRequest(url: String, verb: String, form: seq<FormPart>)

  /** The error record: `detail` always, the others only where the source sets them. */
  datatype ErrorDetails = ErrorDetails(detail: Json, status: Option<int>, statusText: Option<String>, originalError: Option<String>)

  datatype AnalysisResult = Succeeded(data: Json) | Failed(error: ErrorDetails)

  const UnknownError: String := "Unknown error"
  const InvalidFormat: String := "Invalid response format from server"
  const NetworkFallback: String := "Network error. Please check your connection and try again."

  /** `HTTP <status>: <text>`. */
  function HttpLine(status: int, text: String): String
  {
    "HTTP " + IntToString(status) + ": " + text
  }

  /** The `detail` of a failed response: a truthy `detail` or `message` of the
      body as the server sent it, else the status line with the possibly
      empty status text; when the body does not parse to a value whose
      fields can be read, the status line with 'Unknown error' standing in
      for an empty status text. */
  function FailureDetail(r: Response): Json
  {
    if r.body.Parsed? && r.body.value != JNull then
      var detail := Get(r.body.value, "detail");
      var message := Get(r.body.value, "message");
      if HasTruthy(detail) then detail.v
      else if HasTruthy(message) then message.v
      else JString(HttpLine(r.status, r.statusText))
    else JString(HttpLine(r.status, if r.statusText != [] then r.statusText else UnknownError))
  }

  /** `errorDetails`, assigned in the `try` or in its `catch`. */
  method ErrorDetailsOf(r: Response) returns (errorDetails: ErrorDetails)
    ensures errorDetails == ErrorDetails(FailureDetail(r), Some(r.status), Some(r.statusText), None)
  {
    var parsed := r.body.Parsed? && r.body.value != JNull;
    if parsed {
      var errorData := r.body.value;
      var detail := Get(errorData, "detail");
      var message := Get(errorData, "message");
      var d := if HasTruthy(detail) then detail.v
        else if HasTruthy(message) then message.v
        else JString(HttpLine(r.status, r.statusText));
      errorDetails := ErrorDetails(d, Some(r.status), Some(r.statusText), None);
    } else {
      var text := if r.statusText != [] then r.statusText else UnknownError;
      errorDetails := ErrorDetails(JString(HttpLine(r.status, text)), Some(r.status), Some(r.statusText), None);
    }
  }

  /** The outer `catch`: the thrown error's message, or the fixed fallback. */
  function CaughtError(e: ErrorValue): (d: ErrorDetails)
    ensures d.status.None? && d.statusText.None? && d.originalError == Some(e.name)
    ensures e.message != [] ==> d.detail == JString(e.message)
    ensures e.message == [] ==> d.detail == JString(NetworkFallback)
  {
    ErrorDetails(JString(if e.message != [] then e.message else NetworkFallback), None, None, Some(e.name))
  }

  /** What `analyzeTranscript` resolves to for each way the exchange can go. */
  function Classify(outcome: FetchOutcome): (r: AnalysisResult)
    ensures r.Succeeded? <==>
      outcome.Responded? && outcome.response.ok && outcome.response.body.Parsed?
      && HasTruthy(Get(outcome.response.body.value, "output"))
    ensures r.Succeeded? ==> r.data == Get(outcome.response.body.value, "output").v
    ensures outcome.Responded? && !outcome.response.ok ==>
      r == Failed(ErrorDetails(FailureDetail(outcome.response), Some(outcome.response.status), Some(outcome.response.statusText), None))
    ensures outcome.FetchRejected? ==> r == Failed(CaughtError(outcome.error))
    ensures outcome.Responded? && outcome.response.ok && outcome.response.body.Unparseable? ==>
      r == Failed(CaughtError(outcome.response.body.parseError))
    ensures (outcome.Responded? && outcome.response.ok && outcome.response.body.Parsed?
             && !HasTruthy(Get(outcome.response.body.value, "output"))) ==>
      r == Failed(ErrorDetails(JString(InvalidFormat), None, None, None))
  {
    match outcome
    case FetchRejected(e) => Failed(CaughtError(e))
    case Responded(resp) =>
      if !resp.ok then Failed(ErrorDetails(FailureDetail(resp), Some(resp.status), Some(resp.statusText), None))
      else match resp.body
        case Unparseable(e) => Failed(CaughtError(e))
        case Parsed(data) =>
          var output := Get(data, "output");
          if HasTruthy(output) then Succeeded(output.v)
          else Failed(ErrorDetails(JString(InvalidFormat), None, None, None))
  }

  /** Every failure carries a truthy `detail`, so a caller can always show one. */
  lemma FailureHasDetail(outcome: FetchOutcome)
    ensures Classify(outcome).Failed? ==> Truthy(Classify(outcome).error.detail)
  {
    match outcome
    case FetchRejected(e) =>
      assert NetworkFallback != [];
    case Responded(resp) =>
      assert HttpLine(resp.status, resp.statusText)[0] == 'H';
      assert HttpLine(resp.status, UnknownError)[0] == 'H';
      assert InvalidFormat != [];
      assert NetworkFallback != [];
  }

  /** A success carries a truthy `data`. */
  lemma SuccessHasData(outcome: FetchOutcome)
    ensures Classify(outcome).Succeeded? ==> Truthy(Classify(outcome).data)
  {
  }

  /** `analyzeTranscript({ transcript, transcriptFile, selectedOutputs })`:
      the request it sends and the record it resolves to; it never rejects. */
  method AnalyzeTranscript(transcript: Option<String>, transcriptFile: Option<BrowserFile>, selectedOutputs: seq<String>,
                           outcome: FetchOutcome)
    returns (request: AnalysisRequest, result: AnalysisResult)
    ensures request == AnalysisRequest(ApiBaseUrl + "/analyze", "POST", FormFor(transcript, transcriptFile, selectedOutputs))
    ensures result == Classify(outcome)
  {
    var form := BuildForm(transcript, transcriptFile, selectedOutputs);
    request := AnalysisRequest(ApiBaseUrl + "/analyze", "POST", form);
    match outcome {
      case FetchRejected(e) =>
        result := Failed(CaughtError(e));
      case Responded(resp) =>
        if !resp.ok {
          var errorDetails := ErrorDetailsOf(resp);
          result := Failed(errorDetails);
        } else if resp.body.Unparseable? {
          result := Failed(CaughtError(resp.body.parseError));
        } else {
          var data := resp.body.value;
          var output := Get(data, "output");
          if !HasTruthy(output) {
            result := Failed(ErrorDetails(JString(InvalidFormat), None, None, None));
          } else {
            result := Succeeded(output.v);
          }
        }
    }
  }
}
