/** One value row of a modifier: it can be edited (value, system prompt and
    user prompt) under a uniqueness check on the value, or deleted. The list
    of values belongs to the parent, which passes it with its setter. */
module ModifierOption {
  import opened Wrappers
  import opened JsText
  import opened Seqs
  import opened Modifiers

  /** The edit form. */
  datatype FormData = FormData(newValue: String, systemPrompt: String, userPrompt: String)

  /** The `name` of the input an `onChange` comes from. */
  datatype Field = NewValue | SystemPrompt | UserPrompt

  /** The form as it starts and as Cancel resets it: the option's own texts. */
  function FormOf(option: ValueEntry): (f: FormData)
    ensures f.newValue == option.value && f.systemPrompt == option.system && f.userPrompt == option.user
  {
    FormData(option.value, option.system, option.user)
  }

  /** `{ ...formData, [name]: value }`. */
  function WithField(f: FormData, field: Field, text: String): (g: FormData)
    ensures field == NewValue ==> g == f.(newValue := text)
    ensures field == SystemPrompt ==> g == f.(systemPrompt := text)
    ensures field == UserPrompt ==> g == f.(userPrompt := text)
  {
    match field
    case NewValue => f.(newValue := text)
    case SystemPrompt => f.(systemPrompt := text)
    case UserPrompt => f.(userPrompt := text)
  }

  /** Some field is empty once trimmed. */
  predicate AnyBlank(f: FormData)
  {
    IsBlank(f.newValue) || IsBlank(f.systemPrompt) || IsBlank(f.userPrompt)
  }

  /** `vs.find(val => val.value === v)`. */
  function FindValue(vs: seq<ValueEntry>, v: String): (r: Option<ValueEntry>)
    ensures r.Some? ==> r.value in vs && r.value.value == v
    ensures r.None? ==> forall i :: 0 <= i < |vs| ==> vs[i].value != v
  {
    if vs == [] then None
    else if vs[0].value == v then Some(vs[0])
    else FindValue(vs[1..], v)
  }

  predicate NotValue(e: ValueEntry, own: String)
  {
    e.value != own
  }

  /** `values.filter(val => val.value !== option.value).find(val => val.value === newValue)`. */
  function ExistingValue(values: seq<ValueEntry>, own: String, newValue: String): Option<ValueEntry>
  {
    FindValue(Filter(values, (e: ValueEntry) => NotValue(e, own)), newValue)
  }

  /** The check refuses exactly a new value that another value already has:
      keeping the option's own value is always allowed. */
  lemma ExistingValueIff(values: seq<ValueEntry>, own: String, newValue: String)
    ensures ExistingValue(values, own, newValue).Some? <==>
      newValue != own && exists i :: 0 <= i < |values| && values[i].value == newValue
  {
    var others := Filter(values, (e: ValueEntry) => NotValue(e, own));
    if newValue != own && exists i :: 0 <= i < |values| && values[i].value == newValue {
      var i :| 0 <= i < |values| && values[i].value == newValue;
      assert values[i] in others;
    }
  }

  /** The option with the form's texts; every other field is kept. */
  function Edited(option: ValueEntry, f: FormData): (e: ValueEntry)
    ensures e.id == option.id && e.others == option.others
    ensures e.value == f.newValue && e.system == f.systemPrompt && e.user == f.userPrompt
  {
    option.(value := f.newValue, system := f.systemPrompt, user := f.userPrompt)
  }

  /** `values.map(v => v.id === id ? e : v)`. */
  function ReplaceById(values: seq<ValueEntry>, id: int, e: ValueEntry): (r: seq<ValueEntry>)
    ensures |r| == |values|
    ensures forall i :: 0 <= i < |values| ==> r[i] == if values[i].id == id then e else values[i]
  {
    if values == [] then []
    else [if values[0].id == id then e else values[0]] + ReplaceById(values[1..], id, e)
  }

  predicate NotId(e: ValueEntry, id: int)
  {
    e.id != id
  }

  /** `values.filter(value => value.id !== id)`. */
  function DeleteById(values: seq<ValueEntry>, id: int): (r: seq<ValueEntry>)
    ensures forall i :: 0 <= i < |r| ==> r[i].id != id && r[i] in values
    ensures forall i :: 0 <= i < |values| && values[i].id != id ==> values[i] in r
    ensures IsSubsequence(r, values)
  {
    Filter(values, (v: ValueEntry) => NotId(v, id))
  }

  /** Deleting a value after editing it is the same as deleting it unedited. */
  lemma {:induction false} DeleteAfterReplace(values: seq<ValueEntry>, id: int, e: ValueEntry)
    requires e.id == id
    ensures DeleteById(ReplaceById(values, id, e), id) == DeleteById(values, id)
  {
    if values != [] {
      DeleteAfterReplace(values[1..], id, e);
      assert ReplaceById(values, id, e)[1..] == ReplaceById(values[1..], id, e);
    }
  }

  predicate DistinctValues(vs: seq<ValueEntry>)
  {
    forall i, j :: 0 <= i < j < |vs| ==> vs[i].value != vs[j].value
  }

  predicate DistinctIds(vs: seq<ValueEntry>)
  {
    forall i, j :: 0 <= i < j < |vs| ==> vs[i].id != vs[j].id
  }

  /** An edit the uniqueness check lets through keeps the values distinct. */
  lemma EditKeepsValuesDistinct(values: seq<ValueEntry>, option: ValueEntry, f: FormData)
    requires DistinctValues(values) && DistinctIds(values) && option in values
    requires ExistingValue(values, option.value, f.newValue).None?
    ensures DistinctValues(ReplaceById(values, option.id, Edited(option, f)))
  {
    var r := ReplaceById(values, option.id, Edited(option, f));
    var p :| 0 <= p < |values| && values[p] == option;
    var others := Filter(values, (e: ValueEntry) => NotValue(e, option.value));
    forall k | 0 <= k < |values| && k != p
      ensures r[k] == values[k] && values[k].value != f.newValue
    {
      assert values[k].id != option.id;
      assert values[k].value != option.value;
      assert values[k] in others;
    }
    forall i, j | 0 <= i < j < |r| ensures r[i].value != r[j].value {
      if i != p && j != p {
        assert r[i] == values[i] && r[j] == values[j];
      }
    }
  }

  const AllRequired: String := "All fields are required"
  const AlreadyExists: String := "Value already exists"
  const ValueUpdated: String := "Value Updated!"
  const ValueDeleted: String := "Value deleted!"
  const UserDefined: String := "User Defined"

  /** The two guards of `handleSubmit`: the alert that stops the edit, if any. */
  method Rejection(values: seq<ValueEntry>, own: String, f: FormData) returns (alert: Option<String>)
    ensures AnyBlank(f) ==> alert == Some(AllRequired)
    ensures !AnyBlank(f) && ExistingValue(values, own, f.newValue).Some? ==> alert == Some(AlreadyExists)
    ensures !AnyBlank(f) && ExistingValue(values, own, f.newValue).None? ==> alert == None
  {
    if AnyBlank(f) {
      alert := Some(AllRequired);
      return;
    }
    var existing := ExistingValue(values, own, f.newValue);
    if existing.Some? {
      alert := Some(AlreadyExists);
    } else {
      alert := None;
    }
  }

  class Row {
    const option: ValueEntry
    var values: seq<ValueEntry>
    var isEditingOption: bool
    var isEditLoading: bool
    var isDeleteLoading: bool
    var formData: FormData

    constructor(option: ValueEntry, values: seq<ValueEntry>)
      ensures this.option == option && this.values == values
      ensures formData == FormOf(option)
      ensures !isEditingOption && !isEditLoading && !isDeleteLoading
    {
      this.option := option;
      this.values := values;
      isEditingOption := false;
      isEditLoading := false;
      isDeleteLoading := false;
      formData := FormOf(option);
    }

    /** The pencil is disabled while a delete is pending. */
    predicate EditToggleDisabled()
      reads this
    {
      isDeleteLoading
    }

    /** The built-in "User Defined" value can be neither deleted nor renamed. */
    predicate DeleteDisabled()
      reads this
    {
      option.value == UserDefined || isDeleteLoading
    }

    predicate ValueInputDisabled()
    {
      option.value == UserDefined
    }

    predicate SaveDisabled()
      reads this
    {
      isEditLoading
    }

    /** The built-in value is locked: its delete button and its value input
        are disabled whatever the loading flags say. */
    lemma UserDefinedLocked()
      requires option.value == UserDefined
      ensures DeleteDisabled() && ValueInputDisabled()
    {
    }

    /** `handleInputChange`. */
    method InputChange(field: Field, text: String)
      modifies this`formData
      ensures formData == WithField(old(formData), field, text)
    {
      formData := WithField(formData, field, text);
    }

    /** The pencil's `onClick`. */
    method ToggleEditing()
      modifies this`isEditingOption
      ensures isEditingOption == !old(isEditingOption)
    {
      isEditingOption := !isEditingOption;
    }

    /** `cancelEdit`. */
    method CancelEdit()
      modifies this`isEditingOption, this`formData
      ensures !isEditingOption && formData == FormOf(option)
    {
      isEditingOption := false;
      formData := FormOf(option);
    }

    /** `handleSubmit`, with the pending timer run at once: the alert shown
        and the new list. */
    method Submit() returns (alert: String)
      modifies this`values, this`isEditingOption, this`isEditLoading
      ensures AnyBlank(old(formData)) ==>
        alert == AllRequired && values == old(values)
        && isEditingOption == old(isEditingOption) && isEditLoading == old(isEditLoading)
      ensures !AnyBlank(old(formData)) && ExistingValue(old(values), option.value, old(formData).newValue).Some? ==>
        alert == AlreadyExists && values == old(values)
        && isEditingOption == old(isEditingOption) && isEditLoading == old(isEditLoading)
      ensures !AnyBlank(old(formData)) && ExistingValue(old(values), option.value, old(formData).newValue).None? ==>
        (alert == ValueUpdated && values == ReplaceById(old(values), option.id, Edited(option, old(formData)))
         && !isEditingOption && !isEditLoading)
    {
      var f := formData;
      var rejection := Rejection(values, option.value, f);
      if rejection.Some? {
        alert := rejection.value;
      } else {
        isEditLoading := true;
        values := ReplaceById(values, option.id, Edited(option, f));
        isEditingOption := false;
        alert := ValueUpdated;
        isEditLoading := false;
      }
    }

    /** `deleteValue`: nothing happens unless the user confirms. */
    method Delete(confirmed: bool) returns (alert: Option<String>)
      modifies this`values, this`isDeleteLoading
      ensures !confirmed ==> alert == None && values == old(values) && isDeleteLoading == old(isDeleteLoading)
      ensures confirmed ==> alert == Some(ValueDeleted) && values == DeleteById(old(values), option.id) && !isDeleteLoading
    {
      if !confirmed {
        alert := None;
        return;
      }
      isDeleteLoading := true;
      values := DeleteById(values, option.id);
      alert := Some(ValueDeleted);
      isDeleteLoading := false;
    }
  }
}
