/** The dialog that edits one modifier prompt's content and description and
    sends them to the prompt service. */
module EditModifierModal {
  import opened Wrappers
  import opened JsText
  import opened Json
  import opened PromptService
  import PromptModal

  /** What a save does that the page can observe, in order. */
  datatype Event = Alert(message: String) | Updated | Closed

  const ContentRequired: String := "Content is required"
  const SaveSucceeded: String := "Modifier updated successfully!"
  const SaveFailedPrefix: String := "Failed to update modifier: "

  /** `modifier.prompt_id`, with `None` for `undefined`. */
  function PromptIdOf(modifier: Json): (id: Option<Json>)
    ensures modifier.JObject? && "prompt_id" in modifier.fields ==> id == Some(modifier.fields["prompt_id"])
    ensures !modifier.JObject? || "prompt_id" !in modifier.fields ==> id == None
  {
    match Get(modifier, "prompt_id")
    case Value(v) => Some(v)
    case _ => None
  }

  predicate HasUpdated(events: seq<Event>)
  {
    Updated in events
  }

  predicate HasClosed(events: seq<Event>)
  {
    Closed in events
  }

  /** The events of `handleSave` for the dialog's texts, whether `onUpdate`
      was passed, and how the update settled. */
  function SaveEventsWith(content: String, onUpdateGiven: bool, settled: Result<Json, ErrorValue>): (events: seq<Event>)
    ensures IsBlank(content) ==> events == [Alert(ContentRequired)]
    ensures HasClosed(events) <==> !IsBlank(content) && settled.Success?
    ensures HasUpdated(events) <==> !IsBlank(content) && settled.Success? && onUpdateGiven
    ensures HasUpdated(events) ==> |events| >= 2 && events[0] == Updated && events[1] == Closed
    ensures !IsBlank(content) && settled.Failure? ==> events == [Alert(SaveFailedPrefix + settled.error.message)]
  {
    if IsBlank(content) then
      var events := [Alert(ContentRequired)];
      assert !HasClosed(events) && !HasUpdated(events);
      events
    else match settled
      case Success(_) =>
        if onUpdateGiven then
          var events := [Updated, Closed, Alert(SaveSucceeded)];
          assert events[0] == Updated && events[1] == Closed;
          events
        else
          var events := [Closed, Alert(SaveSucceeded)];
          assert events[0] == Closed && !HasUpdated(events);
          events
      case Failure(e) =>
        var events := [Alert(SaveFailedPrefix + e.message)];
        assert !HasClosed(events) && !HasUpdated(events);
        events
  }

  /** The update `handleSave` sends: to the modifier's id, with trimmed texts. */
  function SaveCall(content: String, description: String, modifier: Json, outcome: FetchOutcome): Call
  {
    UpdatePrompt(PromptIdOf(modifier), Some(PromptModal.UpdatePayload(content, description)), outcome)
  }

  function SaveEvents(content: String, description: String, modifier: Json, onUpdateGiven: bool, outcome: FetchOutcome): seq<Event>
  {
    SaveEventsWith(content, onUpdateGiven, Settled(SaveCall(content, description, modifier, outcome)))
  }

  /** Any modifier with a truthy id gets its PATCH, with the trimmed texts. */
  lemma SaveSendsTrimmedTexts(content: String, description: String, modifier: Json, outcome: FetchOutcome)
    requires PromptIdOf(modifier).Some? && Truthy(PromptIdOf(modifier).value)
    ensures var c := SaveCall(content, description, modifier, outcome);
      c.Sent? && c.request.url == ApiBaseUrl + PromptPath(PromptIdOf(modifier).value)
      && c.request.config.body == Some(PromptModal.UpdatePayload(content, description))
  {
    PromptModal.PayloadHasFields(content, description);
  }

  /** A modifier whose id is 0 can never be saved: the dialog stays open. */
  lemma ZeroIdNeverSaved(content: String, description: String, modifier: Json, onUpdateGiven: bool, outcome: FetchOutcome)
    requires PromptIdOf(modifier) == Some(JInt(0))
    ensures !HasClosed(SaveEvents(content, description, modifier, onUpdateGiven, outcome))
  {
    ZeroIdNeverSent(Some(PromptModal.UpdatePayload(content, description)), outcome);
  }

  /** The part of `handleSave` after its guard. */
  method Report(content: String, onUpdateGiven: bool, settled: Result<Json, ErrorValue>)
    returns (events: seq<Event>)
    requires !IsBlank(content)
    ensures events == SaveEventsWith(content, onUpdateGiven, settled)
  {
    match settled {
      case Success(_) =>
        if onUpdateGiven {
          events := [Updated, Closed, Alert(SaveSucceeded)];
        } else {
          events := [Closed, Alert(SaveSucceeded)];
        }
      case Failure(e) =>
        events := [Alert(SaveFailedPrefix + e.message)];
    }
  }

  class Dialog {
    const modifier: Json
    var content: String
    var description: String
    var isLoading: bool

    /** The fields start as the modifier's own, or empty when those are
        falsy; reading them from `null` would throw while rendering. */
    constructor(modifier: Json)
      requires modifier != JNull
      ensures this.modifier == modifier
      ensures content == PromptModal.TextOr(Get(modifier, "content"))
      ensures description == PromptModal.TextOr(Get(modifier, "description"))
      ensures !isLoading
    {
      this.modifier := modifier;
      content := PromptModal.TextOr(Get(modifier, "content"));
      description := PromptModal.TextOr(Get(modifier, "description"));
      isLoading := false;
    }

    /** The content textarea's `onChange`; the description is only displayed. */
    method SetContent(t: String)
      modifies this`content
      ensures content == t
    {
      content := t;
    }

    /** `handleSave`: the guard alerts and returns before the flag is raised;
        otherwise the flag is raised around the update and cleared after. */
    method Save(onUpdateGiven: bool, outcome: FetchOutcome) returns (events: seq<Event>)
      modifies this`isLoading
      ensures events == SaveEvents(old(content), old(description), modifier, onUpdateGiven, outcome)
      ensures IsBlank(old(content)) ==> isLoading == old(isLoading)
      ensures !IsBlank(old(content)) ==> !isLoading
    {
      var text, notes := content, description;
      if IsBlank(text) {
        events := [Alert(ContentRequired)];
        return;
      }
      isLoading := true;
      var settled := Settled(SaveCall(text, notes, modifier, outcome));
      events := Report(text, onUpdateGiven, settled);
      isLoading := false;
    }
  }
}
