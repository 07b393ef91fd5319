/** The core system prompt dialog: it loads the prompt whose id is 0 from
    the prompt list and saves edits to it through the prompt service. */
module PromptModal {
  import opened Wrappers
  import opened JsText
  import opened Json
  import opened PromptService

  /** The prompt `find` looks for: `prompt.prompt_id === 0`. */
  predicate IsCore(p: Json)
  {
    Get(p, "prompt_id") == Value(JInt(0))
  }

  /** How `prompts.find(...)` ends on a list: the index found, no match,
      or a `TypeError` from reading `prompt_id` of a `null` entry. */
  datatype FindOutcome = Found(index: nat) | NotFound | FindThrows

  /** `find` scanning the entries from `from` on. */
  function FindCore(items: seq<Json>, from: nat): (r: FindOutcome)
    requires from <= |items|
    decreases |items| - from
    ensures r.Found? ==> (from <= r.index < |items| && IsCore(items[r.index])
      && forall j :: from <= j < r.index ==> items[j] != JNull && !IsCore(items[j]))
    ensures r.NotFound? ==> forall j :: from <= j < |items| ==> items[j] != JNull && !IsCore(items[j])
    ensures r.FindThrows? ==> exists j :: (from <= j < |items| && items[j] == JNull
      && forall k :: from <= k < j ==> items[k] != JNull && !IsCore(items[k]))
  {
    if from == |items| then NotFound
    else if items[from] == JNull then FindThrows
    else if IsCore(items[from]) then Found(from)
    else FindCore(items, from + 1)
  }

  /** The core prompt the fetch yields, if any: none when the request fails,
      when the answer is not a list, when nothing matches, or when `find`
      throws. */
  function CoreLookup(outcome: FetchOutcome): (r: Option<Json>)
    ensures r.Some? ==> IsCore(r.value)
    ensures r.Some? ==> (var result := Settled(GetPrompts(outcome));
      result.Success? && result.value.JArray? && r.value in result.value.items)
  {
    match Settled(GetPrompts(outcome))
    case Success(JArray(items)) =>
      (match FindCore(items, 0)
       case Found(i) => Some(items[i])
       case _ => None)
    case _ => None
  }

  /** The first entry with id 0 is chosen, even if a later one has id 0 too. */
  lemma FirstCoreWins(outcome: FetchOutcome, p: Json, q: Json)
    requires IsCore(p) && IsCore(q) && p != q
    requires Settled(GetPrompts(outcome)) == Success(JArray([p, q]))
    ensures CoreLookup(outcome) == Some(p)
  {
    assert FindCore([p, q], 0) == Found(0);
  }

  /** `value || ''` for a text field of the fetched prompt. */
  function TextOr(a: Access): (t: String)
    ensures a.Value? && a.v.JString? ==> t == a.v.s
    ensures !HasTruthy(a) ==> t == []
  {
    if HasTruthy(a) then StringOf(a.v) else []
  }

  /** `{ content: content.trim(), description: description.trim() }`. */
  function UpdatePayload(content: String, description: String): (j: Json)
    ensures j.JObject? && j.fields.Keys == {"content", "description"}
    ensures Get(j, "content") == Value(JString(Trim(content)))
    ensures Get(j, "description") == Value(JString(Trim(description)))
  {
    assert "content" != "description" by { assert "content"[0] != "description"[0]; }
    var c, d := JString(Trim(content)), JString(Trim(description));
    var fields := map["content" := c, "description" := d];
    assert fields["content"] == c && fields["description"] == d;
    assert fields.Keys == {"content", "description"};
    JObject(fields)
  }

  /** The payload always has its two keys, so the fields check passes it. */
  lemma PayloadHasFields(content: String, description: String)
    ensures HasFields(Some(UpdatePayload(content, description)))
  {
    var f := UpdatePayload(content, description).fields;
    assert "content" in f && "description" in f;
    assert "content" != "description" by { assert "content"[0] != "description"[0]; }
    assert |f.Keys| >= 1;
  }

  /** What a save does that the page can observe, in order. */
  datatype Event = Alert(message: String) | Added(content: String, description: String) | Closed

  const ContentRequired: String := "Please provide a prompt content"
  const CoreNotFound: String := "Core prompt not found"
  const SaveSucceeded: String := "Core System Prompt updated successfully!"
  const SaveFailedPrefix: String := "Failed to update core system prompt: "

  /** Some event is the call of `onAdd`. */
  predicate HasAdded(events: seq<Event>)
  {
    exists k :: 0 <= k < |events| && events[k].Added?
  }

  /** The events of `handleSave` for the dialog's state and an update call.
      `onAdd` gets the untrimmed texts, while the request carries trimmed ones. */
  function SaveEventsWith(content: String, description: String, corePromptId: Option<int>, settled: Result<Json, ErrorValue>)
    : (events: seq<Event>)
    ensures IsBlank(content) ==> events == [Alert(ContentRequired)]
    ensures !IsBlank(content) && corePromptId.None? ==> events == [Alert(CoreNotFound)]
    ensures HasAdded(events) <==> !IsBlank(content) && corePromptId.Some? && settled.Success?
    ensures !IsBlank(content) && corePromptId.Some? && settled.Failure? ==>
      events == [Alert(SaveFailedPrefix + settled.error.message)]
  {
    if IsBlank(content) then [Alert(ContentRequired)]
    else if corePromptId.None? then [Alert(CoreNotFound)]
    else match settled
      case Success(_) =>
        var added := [Added(content, description), Closed, Alert(SaveSucceeded)];
        assert added[0].Added?;
        added
      case Failure(e) => [Alert(SaveFailedPrefix + e.message)]
  }

  /** The update call `handleSave` makes. */
  function SaveCall(content: String, description: String, id: int, outcome: FetchOutcome): Call
  {
    UpdatePrompt(Some(JInt(id)), Some(UpdatePayload(content, description)), outcome)
  }

  /** The events of `handleSave` with the service as written. */
  function SaveEvents(content: String, description: String, corePromptId: Option<int>, outcome: FetchOutcome): seq<Event>
  {
    var id := if corePromptId.Some? then corePromptId.value else 0;
    SaveEventsWith(content, description, corePromptId, Settled(SaveCall(content, description, id, outcome)))
  }

  /** The only id the dialog can hold is 0, which the service refuses: the
      save never adds or closes, and with content it reports the refusal. */
  lemma SaveNeverSucceeds(content: String, description: String, corePromptId: Option<int>, outcome: FetchOutcome)
    requires corePromptId == None || corePromptId == Some(0)
    ensures !HasAdded(SaveEvents(content, description, corePromptId, outcome))
    ensures !IsBlank(content) && corePromptId == Some(0) ==>
      SaveEvents(content, description, corePromptId, outcome) == [Alert(SaveFailedPrefix + PatchIdRequired)]
  {
    ZeroIdNeverSent(Some(UpdatePayload(content, description)), outcome);
  }

  /** With the corrected service, a save with content and an ok answer adds
      the untrimmed texts, then closes, then reports success. */
  lemma CorrectedSaveSucceeds(content: String, description: String, response: Response)
    requires !IsBlank(content) && response.ok && IsEmptyResponse(response)
    ensures SaveEventsWith(content, description, Some(0),
              Settled(UpdatePromptCorrected(Some(JInt(0)), Some(UpdatePayload(content, description)), Responded(response))))
            == [Added(content, description), Closed, Alert(SaveSucceeded)]
  {
    PayloadHasFields(content, description);
  }

  /** The part of `handleSave` after its guards: the update is awaited and
      either the callbacks and the success alert follow, or the failure alert. */
  method Report(text: String, notes: String, id: int, settled: Result<Json, ErrorValue>) returns (events: seq<Event>)
    requires !IsBlank(text)
    ensures events == SaveEventsWith(text, notes, Some(id), settled)
  {
    match settled {
      case Success(_) =>
        events := [Added(text, notes), Closed, Alert(SaveSucceeded)];
      case Failure(e) =>
        events := [Alert(SaveFailedPrefix + e.message)];
    }
  }

  class Dialog {
    var content: String
    var description: String
    var corePromptId: Option<int>
    var isLoading: bool
    var isFetching: bool

    /** The id is set only from a prompt found by `=== 0`. */
    predicate Valid()
      reads this
    {
      corePromptId == None || corePromptId == Some(0)
    }

    constructor()
      ensures Valid()
      ensures content == [] && description == [] && corePromptId == None
      ensures !isLoading && isFetching
    {
      content := [];
      description := [];
      corePromptId := None;
      isLoading := false;
      isFetching := true;
    }

    /** The textarea is disabled while fetching. */
    predicate ContentEditable()
      reads this
    {
      !isFetching
    }

    /** `disabled={isLoading || isFetching}` on Save. */
    predicate SaveDisabled()
      reads this
    {
      isLoading || isFetching
    }

    /** The textarea's `onChange`. */
    method SetContent(t: String)
      modifies this`content
      ensures content == t
    {
      content := t;
    }

    /** `fetchCoreSystemPrompt`: the fields are filled from the core prompt,
        or emptied when there is none; the flag is cleared in `finally`. */
    method FetchCorePrompt(outcome: FetchOutcome)
      requires Valid()
      modifies this`content, this`description, this`corePromptId, this`isFetching
      ensures Valid() && !isFetching
      ensures CoreLookup(outcome).Some? ==> (var p := CoreLookup(outcome).value;
        content == TextOr(Get(p, "content")) && description == TextOr(Get(p, "description"))
        && corePromptId == Some(0))
      ensures CoreLookup(outcome).None? ==> content == [] && description == [] && corePromptId == old(corePromptId)
    {
      isFetching := true;
      var corePrompt := CoreLookup(outcome);
      if corePrompt.Some? {
        var p := corePrompt.value;
        content := TextOr(Get(p, "content"));
        description := TextOr(Get(p, "description"));
        corePromptId := Some(0);
      } else {
        content := [];
        description := [];
      }
      isFetching := false;
    }

    /** `handleSave`: the guards alert and return before the flag is raised;
        otherwise the flag is raised around the update and cleared after. */
    method Save(outcome: FetchOutcome) returns (events: seq<Event>)
      requires Valid()
      modifies this`isLoading
      ensures events == SaveEvents(old(content), old(description), old(corePromptId), outcome)
      ensures IsBlank(old(content)) || old(corePromptId).None? ==> isLoading == old(isLoading)
      ensures !IsBlank(old(content)) && old(corePromptId).Some? ==> !isLoading
    {
      var text, notes, id := content, description, corePromptId;
      if IsBlank(text) {
        events := [Alert(ContentRequired)];
        return;
      }
      if id.None? {
        events := [Alert(CoreNotFound)];
        return;
      }
      isLoading := true;
      var settled := Settled(SaveCall(text, notes, id.value, outcome));
      events := Report(text, notes, id.value, settled);
      isLoading := false;
    }
  }
}
