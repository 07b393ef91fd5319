/** The dialog that creates a modifier: a name that is not blank and not
    already taken, an optional description, and the next sequence number. */
module AddModifierModal {
  import opened Wrappers
  import opened JsText
  import opened Modifiers

  const NameRequired: String := "Please provide modifier name"
  const AlreadyExists: String := "Modifier Already Exists"
  const Created: String := "Modifier Created!"
  const DefaultDescription: String := "New modifier description"

  /** `modifiers.find(modifier => modifier.modifier === title)`: the name is
      compared as typed, without trimming. */
  function FindByName(modifiers: seq<Modifier>, title: String): (r: Option<Modifier>)
    ensures r.Some? ==> r.value in modifiers && r.value.modifier == title
    ensures r.None? ==> forall i :: 0 <= i < |modifiers| ==> modifiers[i].modifier != title
  {
    if modifiers == [] then None
    else if modifiers[0].modifier == title then Some(modifiers[0])
    else FindByName(modifiers[1..], title)
  }

  /** The record handed to `onAdd`. */
  function NewModifierFor(title: String, description: String, count: nat): (m: Modifier)
    ensures m.modifier == title && m.status == Active && m.values == []
    ensures m.sequence == count + 1
    ensures description != [] ==> m.description == description
    ensures description == [] ==> m.description == DefaultDescription
  {
    Modifier(title, if description != [] then description else DefaultDescription, Active, count + 1, [])
  }

  /** What `createModifier` does that the page can observe, in order. */
  datatype Event = Alert(message: String) | Added(m: Modifier) | Closed

  predicate Accepted(title: String, modifiers: seq<Modifier>)
  {
    !IsBlank(title) && FindByName(modifiers, title).None?
  }

  /** The events of `createModifier`, with the pending timer run at once. */
  function CreateEvents(title: String, description: String, modifiers: seq<Modifier>): (events: seq<Event>)
    ensures IsBlank(title) ==> events == [Alert(NameRequired)]
    ensures !IsBlank(title) && !Accepted(title, modifiers) ==> events == [Alert(AlreadyExists)]
    ensures Accepted(title, modifiers) ==>
      events == [Added(NewModifierFor(title, description, |modifiers|)), Alert(Created), Closed]
  {
    if IsBlank(title) then [Alert(NameRequired)]
    else if FindByName(modifiers, title).Some? then [Alert(AlreadyExists)]
    else [Added(NewModifierFor(title, description, |modifiers|)), Alert(Created), Closed]
  }

  /** How many times `onAdd` is called in a run of events. */
  function AddedCount(events: seq<Event>): nat
  {
    if events == [] then 0 else (if events[0].Added? then 1 else 0) + AddedCount(events[1..])
  }

  /** `onAdd` runs exactly once on the accepted path and never otherwise. */
  lemma AddedOnlyWhenAccepted(title: String, description: String, modifiers: seq<Modifier>)
    ensures AddedCount(CreateEvents(title, description, modifiers)) == if Accepted(title, modifiers) then 1 else 0
  {
    var events := CreateEvents(title, description, modifiers);
    if Accepted(title, modifiers) {
      var tail: seq<Event> := [Alert(Created), Closed];
      assert AddedCount([Closed]) == 0 by { assert [Closed][1..] == []; }
      assert AddedCount(tail) == 0 by { assert tail[1..] == [Closed]; }
      assert events[1..] == tail;
    } else {
      assert |events| == 1 && !events[0].Added?;
      assert events[1..] == [];
    }
  }

  /** An accepted record's name is new, and when the sequences so far lie in
      1..n its sequence n + 1 is unused. */
  lemma AcceptedIsFresh(title: String, description: String, modifiers: seq<Modifier>)
    requires Accepted(title, modifiers)
    requires forall i :: 0 <= i < |modifiers| ==> modifiers[i].sequence <= |modifiers|
    ensures var m := NewModifierFor(title, description, |modifiers|);
      forall i :: 0 <= i < |modifiers| ==> modifiers[i].modifier != m.modifier && modifiers[i].sequence != m.sequence
  {
  }

  /** The check compares names as typed: with the stored names trimmed, an
      existing name followed by a space is accepted as a new modifier. */
  lemma PaddedNameAccepted(modifiers: seq<Modifier>, name: String)
    requires !IsBlank(name)
    requires forall i :: 0 <= i < |modifiers| ==> Trim(modifiers[i].modifier) == modifiers[i].modifier
    ensures Accepted(name + " ", modifiers)
  {
    TrimPaddedNotBlank(name);
    forall i | 0 <= i < |modifiers| ensures modifiers[i].modifier != name + " " {
      PaddedNotTrimmed(name);
    }
  }

  lemma PaddedNotTrimmed(name: String)
    ensures Trim(name + " ") != name + " "
  {
    var s := name + " ";
    assert IsSpace(s[|s| - 1]);
  }

  lemma TrimPaddedNotBlank(name: String)
    requires !IsBlank(name)
    ensures !IsBlank(name + " ")
  {
    BlankIffAllSpace(name);
    BlankIffAllSpace(name + " ");
    var i :| 0 <= i < |name| && !IsSpace(name[i]);
    assert (name + " ")[i] == name[i];
  }

  class Dialog {
    var title: String
    var description: String
    var isLoading: bool

    constructor()
      ensures title == [] && description == [] && !isLoading
    {
      title := [];
      description := [];
      isLoading := false;
    }

    method SetTitle(t: String)
      modifies this`title
      ensures title == t
    {
      title := t;
    }

    method SetDescription(t: String)
      modifies this`description
      ensures description == t
    {
      description := t;
    }

    /** `disabled={isLoading}` on Create. */
    predicate CreateDisabled()
      reads this
    {
      isLoading
    }

    /** `createModifier` against the list the page passed in. */
    method Create(modifiers: seq<Modifier>) returns (events: seq<Event>)
      modifies this`isLoading
      ensures events == CreateEvents(old(title), old(description), modifiers)
      ensures Accepted(old(title), modifiers) ==> !isLoading
      ensures !Accepted(old(title), modifiers) ==> isLoading == old(isLoading)
    {
      var name, text := title, description;
      if IsBlank(name) {
        events := [Alert(NameRequired)];
        return;
      }
      var existing := FindByName(modifiers, name);
      if existing.Some? {
        events := [Alert(AlreadyExists)];
      } else {
        isLoading := true;
        var newModifier := NewModifierFor(name, text, |modifiers|);
        events := [Added(newModifier), Alert(Created), Closed];
        isLoading := false;
      }
    }
  }
}
