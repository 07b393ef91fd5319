/** The settings page: the list of modifiers, shown in sequence order, whose
    status can be toggled, and the token limit field. */
module SettingsPage {
  import opened JsText
  import opened Modifiers

  /** The five modifiers the page starts with. */
  const InitialModifiers: seq<Modifier> := [
    Modifier("Audience", "Description", Active, 1, []),
    Modifier("Tone", "Description", Active, 2, []),
    Modifier("Context", "Description", Active, 3, []),
    Modifier("Coherence", "Description", Inactive, 4, []),
    Modifier("Domain", "Description", Inactive, 5, [])
  ]

  /** `mod.status === 'active' ? 'inactive' : 'active'`. */
  function Flip(status: String): (r: String)
    ensures status == Active ==> r == Inactive
    ensures status != Active ==> r == Active
  {
    if status == Active then Inactive else Active
  }

  /** `handleToggleStatus(name)`: the `map` over the list. */
  function ToggleStatusOf(mods: seq<Modifier>, name: String): (r: seq<Modifier>)
    ensures |r| == |mods|
    ensures forall i :: 0 <= i < |mods| && mods[i].modifier == name ==> r[i] == mods[i].(status := Flip(mods[i].status))
    ensures forall i :: 0 <= i < |mods| && mods[i].modifier != name ==> r[i] == mods[i]
  {
    if mods == [] then []
    else
      var m := mods[0];
      [if m.modifier == name then m.(status := Flip(m.status)) else m] + ToggleStatusOf(mods[1..], name)
  }

  predicate KnownStatus(m: Modifier)
  {
    m.status == Active || m.status == Inactive
  }

  /** Toggling the same name twice restores a list whose statuses are all
      'active' or 'inactive'. */
  lemma {:induction false} ToggleTwice(mods: seq<Modifier>, name: String)
    requires forall i :: 0 <= i < |mods| ==> KnownStatus(mods[i])
    ensures ToggleStatusOf(ToggleStatusOf(mods, name), name) == mods
  {
    var once := ToggleStatusOf(mods, name);
    var twice := ToggleStatusOf(once, name);
    forall i | 0 <= i < |mods| ensures twice[i] == mods[i] {
      if mods[i].modifier == name {
        assert Active != Inactive by { assert Active[0] != Inactive[0]; }
      }
    }
  }

  /** Any other status is lost: it becomes 'active' on the first toggle. */
  lemma OtherStatusLost(m: Modifier)
    requires !KnownStatus(m)
    ensures ToggleStatusOf(ToggleStatusOf([m], m.modifier), m.modifier) == [m.(status := Inactive)]
  {
  }

  /** The initial list toggled twice is itself again. */
  lemma InitialToggleTwice(name: String)
    ensures ToggleStatusOf(ToggleStatusOf(InitialModifiers, name), name) == InitialModifiers
  {
    ToggleTwice(InitialModifiers, name);
  }

  predicate SortedBySequence(s: seq<Modifier>)
  {
    forall i, j :: 0 <= i < j < |s| ==> s[i].sequence <= s[j].sequence
  }

  /** `modifiers.sort((a, b) => a.sequence - b.sequence)`, in place: the
      array ends sorted by sequence as a permutation of itself, and an array
      that is already sorted is left as it is. */
  method SortBySequence(a: array<Modifier>)
    modifies a
    ensures SortedBySequence(a[..])
    ensures multiset(a[..]) == multiset(old(a[..]))
    ensures SortedBySequence(old(a[..])) ==> a[..] == old(a[..])
  {
    var i := 0;
    while i < a.Length
      invariant 0 <= i <= a.Length
      invariant forall k, l :: 0 <= k < l < i ==> a[k].sequence <= a[l].sequence
      invariant multiset(a[..]) == multiset(old(a[..]))
      invariant SortedBySequence(old(a[..])) ==> a[..] == old(a[..])
    {
      var j := i;
      while j > 0 && a[j - 1].sequence > a[j].sequence
        invariant 0 <= j <= i < a.Length
        invariant forall k, l :: 0 <= k < l <= i && l != j ==> a[k].sequence <= a[l].sequence
        invariant multiset(a[..]) == multiset(old(a[..]))
        invariant SortedBySequence(old(a[..])) ==> a[..] == old(a[..]) && j == i
      {
        SwapDown(a, j);
        j := j - 1;
      }
      i := i + 1;
    }
  }

  /** Exchanges the element at `j` with the one before it. */
  method SwapDown(a: array<Modifier>, j: int)
    requires 0 < j < a.Length
    modifies a
    ensures a[..] == old(a[..])[j - 1 := old(a[j])][j := old(a[j - 1])]
    ensures multiset(a[..]) == multiset(old(a[..]))
  {
    a[j - 1], a[j] := a[j], a[j - 1];
  }

  class Page {
    var modifiers: array<Modifier>
    var tokenLimit: String
    var isEditingLimit: bool

    constructor()
      ensures fresh(modifiers) && modifiers[..] == InitialModifiers
      ensures tokenLimit == "4000" && !isEditingLimit
    {
      modifiers := new Modifier[5](i requires 0 <= i < 5 => InitialModifiers[i]);
      tokenLimit := "4000";
      isEditingLimit := false;
    }

    /** The status button: a new array from the toggled list. */
    method ToggleStatus(name: String)
      modifies this`modifiers
      ensures fresh(modifiers)
      ensures modifiers[..] == ToggleStatusOf(old(modifiers[..]), name)
    {
      var next := ToggleStatusOf(modifiers[..], name);
      modifiers := new Modifier[|next|](i requires 0 <= i < |next| => next[i]);
    }

    /** Rendering the grid sorts the state array in place before mapping it. */
    method ShowModifiers() returns (shown: seq<Modifier>)
      modifies modifiers
      ensures shown == modifiers[..]
      ensures SortedBySequence(shown) && multiset(shown) == multiset(old(modifiers[..]))
    {
      SortBySequence(modifiers);
      shown := modifiers[..];
    }

    /** The pencil beside the limit. */
    method StartEditingLimit()
      modifies this`isEditingLimit
      ensures isEditingLimit
    {
      isEditingLimit := true;
    }

    /** The number input's `onChange` stores the raw text. */
    method SetTokenLimit(text: String)
      modifies this`tokenLimit
      ensures tokenLimit == text
    {
      tokenLimit := text;
    }

    /** `handleUpdateLimit` only leaves edit mode; the limit is not sent. */
    method UpdateLimit()
      modifies this`isEditingLimit
      ensures !isEditingLimit
    {
      isEditingLimit := false;
    }
  }
}
