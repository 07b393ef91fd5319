/** The Set Sequence dialog: one number input per modifier, each edit
    validated on its own, duplicate sequences detected over the whole list,
    and a Save button guarded by the resulting flags. The rows are objects
    shared with the caller's list, and an edit writes into the row in place. */
module SequenceModal {
  import opened JsText
  import opened Seqs
  import opened JsNumber

  /** A row's `sequence`: a number, or a string kept as typed. */
  datatype SeqVal = SNum(n: int) | SStr(s: String)

  const TooLarge: String := "The sequence should be less than or equal to number of modifiers"
  const NoValue: String := "Please provide a value"
  const NotANumber: String := "Please provide a valid number"
  const NotPositive: String := "Please provide positive values"

  const SaveSucceeded: String := "Sequence Updated Successfully!"

  /** What the save timer does that the page can observe, in order. */
  datatype Event = Alert(message: String) | Closed

  /** What one call of `handleSequenceChange` decides for the edited row:
      the value stored, the error message, and whether the duplicate test runs. */
  datatype Decision = Decision(stored: SeqVal, error: String, recheck: bool)

  /** The branch chain of `handleSequenceChange`. `value > count` compares
      the typed string converted by `Number`; the later branches use `parseInt`. */
  function Decide(value: String, count: nat): (d: Decision)
    ensures d.error == [] <==> d.recheck
    ensures d.recheck ==>
      d.stored.SNum? && d.stored.n >= 1 && ParseInt(value) == IntValue(d.stored.n)
      && !GreaterThan(ToNumber(value), count) && !IsBlank(value)
    ensures !d.recheck ==> d.error in [TooLarge, NoValue, NotANumber, NotPositive]
    ensures d.error == TooLarge <==> GreaterThan(ToNumber(value), count)
    ensures d.error == TooLarge ==> d.stored == SStr(value)
    ensures d.error == NoValue <==> !GreaterThan(ToNumber(value), count) && IsBlank(value)
    ensures d.error == NoValue ==> d.stored == SStr([])
    ensures d.error == NotANumber <==> !GreaterThan(ToNumber(value), count) && !IsBlank(value) && ParseInt(value).IntNaN?
    ensures d.error == NotANumber ==> d.stored == SStr([])
    ensures d.error == NotPositive ==>
      d.stored.SNum? && d.stored.n <= 0 && ParseInt(value) == IntValue(d.stored.n)
      && !GreaterThan(ToNumber(value), count) && !IsBlank(value)
  {
    DecideOn(value, ToNumber(value), IsBlank(value), ParseInt(value), count)
  }

  /** The four messages are different texts: their lengths differ. */
  lemma MessagesDistinct()
    ensures TooLarge != NoValue && TooLarge != NotANumber && TooLarge != NotPositive
    ensures NoValue != NotANumber && NoValue != NotPositive && NotANumber != NotPositive
  {
    assert |TooLarge| == 64 && |NoValue| == 22 && |NotANumber| == 29 && |NotPositive| == 30;
  }

  /** The chain over the three conversions of the typed value. */
  function DecideOn(value: String, number: Number, blank: bool, parsed: IntParse, count: nat): (d: Decision)
    ensures d.error == [] <==> d.recheck
    ensures d.recheck ==>
      d.stored.SNum? && d.stored.n >= 1 && parsed == IntValue(d.stored.n) && !GreaterThan(number, count) && !blank
    ensures !d.recheck ==> d.error in [TooLarge, NoValue, NotANumber, NotPositive]
    ensures d.error == TooLarge <==> GreaterThan(number, count)
    ensures d.error == TooLarge ==> d.stored == SStr(value)
    ensures d.error == NoValue <==> !GreaterThan(number, count) && blank
    ensures d.error == NoValue ==> d.stored == SStr([])
    ensures d.error == NotANumber <==> !GreaterThan(number, count) && !blank && parsed.IntNaN?
    ensures d.error == NotANumber ==> d.stored == SStr([])
    ensures d.error == NotPositive ==>
      d.stored.SNum? && d.stored.n <= 0 && parsed == IntValue(d.stored.n) && !GreaterThan(number, count) && !blank
  {
    MessagesDistinct();
    if GreaterThan(number, count) then Decision(SStr(value), TooLarge, false)
    else if blank then Decision(SStr([]), NoValue, false)
    else if parsed.IntNaN? then Decision(SStr([]), NotANumber, false)
    else if parsed.value <= 0 then Decision(SNum(parsed.value), NotPositive, false)
    else Decision(SNum(parsed.value), [], true)
  }

  /** `isNaN(val)`: a string converts with `Number`. */
  predicate IsNaNValue(v: SeqVal)
  {
    v.SStr? && ToNumber(v.s).NaN?
  }

  /** The filter `val !== '' && !isNaN(val)`. */
  predicate Comparable(v: SeqVal)
  {
    v != SStr([]) && !IsNaNValue(v)
  }

  function ComparableValues(seqs: seq<SeqVal>): (r: seq<SeqVal>)
    ensures forall i :: 0 <= i < |r| ==> Comparable(r[i]) && r[i] in seqs
    ensures forall i :: 0 <= i < |seqs| && Comparable(seqs[i]) ==> seqs[i] in r
  {
    Filter(seqs, Comparable)
  }

  /** `sequences.indexOf(x)` for an `x` that may be absent (then `|s|`). */
  function FirstIndex(s: seq<SeqVal>, x: SeqVal): (r: nat)
    ensures r <= |s|
    ensures r < |s| ==> s[r] == x
    ensures forall k :: 0 <= k < r ==> s[k] != x
  {
    if s == [] then 0
    else if s[0] == x then 0
    else 1 + FirstIndex(s[1..], x)
  }

  /** `sequences.some((seq, i) => sequences.indexOf(seq) !== i)`. */
  predicate HasDuplicate(s: seq<SeqVal>)
  {
    exists i :: 0 <= i < |s| && FirstIndex(s, s[i]) != i
  }

  /** The index-of test finds exactly the lists with two equal entries
      (strict equality: the string "3" and the number 3 differ). */
  lemma HasDuplicateIff(s: seq<SeqVal>)
    ensures HasDuplicate(s) <==> exists i, j :: 0 <= i < j < |s| && s[i] == s[j]
  {
    if HasDuplicate(s) {
      var i :| 0 <= i < |s| && FirstIndex(s, s[i]) != i;
      var k := FirstIndex(s, s[i]);
      assert k < i;
      assert s[k] == s[i];
    }
    if exists i, j :: 0 <= i < j < |s| && s[i] == s[j] {
      var i, j :| 0 <= i < j < |s| && s[i] == s[j];
      assert FirstIndex(s, s[j]) <= i;
      assert FirstIndex(s, s[j]) != j;
    }
  }

  /** The dialog's state as values: the rows' sequences, the error and the flag. */
  datatype EditorState = EditorState(sequences: seq<SeqVal>, error: String, hasDuplicate: bool)

  /** One call of `handleSequenceChange(index, value)` on that state. */
  function Change(st: EditorState, index: nat, value: String): EditorState
    requires index < |st.sequences|
  {
    Apply(st, index, Decide(value, |st.sequences|))
  }

  /** A decision applied: only the edited row changes; an error clears the
      duplicate flag, and without one the flag says whether two comparable
      sequences are equal. */
  function Apply(st: EditorState, index: nat, d: Decision): (r: EditorState)
    requires index < |st.sequences|
    requires d.error == [] <==> d.recheck
    ensures |r.sequences| == |st.sequences|
    ensures r.sequences[index] == d.stored
    ensures forall j :: 0 <= j < |st.sequences| && j != index ==> r.sequences[j] == st.sequences[j]
    ensures r.error == d.error
    ensures r.error != [] ==> !r.hasDuplicate
    ensures r.error == [] ==> (r.hasDuplicate <==>
      exists i, j :: 0 <= i < j < |ComparableValues(r.sequences)|
        && ComparableValues(r.sequences)[i] == ComparableValues(r.sequences)[j])
  {
    var seqs := st.sequences[index := d.stored];
    HasDuplicateIff(ComparableValues(seqs));
    EditorState(seqs, d.error, if d.recheck then HasDuplicate(ComparableValues(seqs)) else false)
  }

  /** `disabled={isLoading || hasDuplicate || error.length > 0}`. */
  predicate SaveDisabled(isLoading: bool, st: EditorState)
  {
    isLoading || st.hasDuplicate || |st.error| > 0
  }

  /** A whole number typed as digits: accepted exactly in 1..count, stored
      as a number; a larger one is kept as the typed string with the range
      error; 0 gets the positivity error. */
  lemma WholeNumberEntry(n: nat, count: nat)
    ensures var d := Decide(NatToString(n), count);
      (1 <= n <= count ==> d == Decision(SNum(n), [], true))
      && (n > count ==> d == Decision(SStr(NatToString(n)), TooLarge, false))
      && (n == 0 ==> d == Decision(SNum(0), NotPositive, false))
  {
    var s := NatToString(n);
    NumeralConversions(n);
    NumeralNotBlank(n);
    DecideKnown(s, count, Finite(n as real), false, IntValue(n));
  }

  /** `Decide` once the three conversions of the typed value are known. */
  lemma DecideKnown(value: String, count: nat, number: Number, blank: bool, parsed: IntParse)
    requires ToNumber(value) == number && IsBlank(value) == blank && ParseInt(value) == parsed
    ensures Decide(value, count) == DecideOn(value, number, blank, parsed, count)
  {
  }

  /** Both conversions read a printed natural number back. */
  lemma NumeralConversions(n: nat)
    ensures ToNumber(NatToString(n)) == Finite(n as real)
    ensures ParseInt(NatToString(n)) == IntValue(n)
  {
    ToNumberOfNatToString(n);
    ParseIntOfIntToString(n);
    assert IntToString(n) == NatToString(n);
  }

  lemma NumeralNotBlank(n: nat)
    ensures !IsBlank(NatToString(n))
  {
    var s := NatToString(n);
    BlankIffAllSpace(s);
    assert IsDigit(s[0]);
    assert !IsSpace(s[0]);
  }

  /** Blank input is never "too large": it converts to 0. */
  lemma BlankEntry(value: String, count: nat)
    requires IsBlank(value)
    ensures Decide(value, count) == Decision(SStr([]), NoValue, false)
  {
    assert ToNumber(value) == Finite(0.0);
  }

  /** A row object: the modifier's name and its `sequence` field. */
  class ModifierRow {
    var modifier: String
    var sequence: SeqVal

    constructor(name: String, s: SeqVal)
      ensures modifier == name && sequence == s
    {
      modifier := name;
      sequence := s;
    }
  }

  class Modal {
    var localModifiers: seq<ModifierRow>
    var hasDuplicate: bool
    var error: String
    var isLoading: bool

    /** No row object appears twice in the list. */
    predicate DistinctRows()
      reads this
    {
      forall i, j :: 0 <= i < j < |localModifiers| ==> localModifiers[i] != localModifiers[j]
    }

    function Sequences(): (s: seq<SeqVal>)
      reads this, localModifiers
      ensures |s| == |localModifiers|
      ensures forall i :: 0 <= i < |s| ==> s[i] == localModifiers[i].sequence
    {
      seq(|localModifiers|, i reads this, localModifiers requires 0 <= i < |localModifiers| => localModifiers[i].sequence)
    }

    function State(): EditorState
      reads this, localModifiers
    {
      EditorState(Sequences(), error, hasDuplicate)
    }

    /** `setLocalModifiers([...modifiers])`: a new list holding the caller's row objects. */
    constructor(modifiers: seq<ModifierRow>)
      ensures localModifiers == modifiers && error == [] && !hasDuplicate && !isLoading
    {
      localModifiers := modifiers;
      hasDuplicate := false;
      error := [];
      isLoading := false;
    }

    /** `handleSequenceChange(index, value)`: writes the row object in place,
        so the caller's list sees the new sequence as well. */
    method SequenceChange(index: nat, value: String)
      requires DistinctRows() && index < |localModifiers|
      modifies this`error, this`hasDuplicate, (localModifiers[index] as ModifierRow)`sequence
      ensures localModifiers == old(localModifiers)
      ensures State() == Change(old(State()), index, value)
    {
      var d := Decide(value, |localModifiers|);
      Store(index, d);
    }

    /** The decided value goes into the row, the error into the dialog, and
        the duplicate test runs over all rows when there is no error. */
    method Store(index: nat, d: Decision)
      requires DistinctRows() && index < |localModifiers|
      requires d.error == [] <==> d.recheck
      modifies this`error, this`hasDuplicate, (localModifiers[index] as ModifierRow)`sequence
      ensures localModifiers == old(localModifiers)
      ensures State() == Apply(old(State()), index, d)
    {
      ghost var st := State();
      var row := localModifiers[index];
      row.sequence := d.stored;
      error := d.error;
      forall j | 0 <= j < |localModifiers| && j != index
        ensures localModifiers[j].sequence == st.sequences[j]
      {
        assert localModifiers[j] != row;
      }
      assert Sequences() == st.sequences[index := d.stored];
      if d.recheck {
        var sequences := ComparableValues(Sequences());
        hasDuplicate := HasDuplicate(sequences);
      } else {
        hasDuplicate := false;
      }
    }

    predicate SaveButtonDisabled()
      reads this, localModifiers
    {
      SaveDisabled(isLoading, State())
    }

    /** `handleSave`: the simulated save only raises the loading flag. */
    method Save()
      modifies this`isLoading
      ensures isLoading
    {
      isLoading := true;
    }

    /** The save timer: the success alert, the flag dropped, then `onClose`. */
    method SaveFinished() returns (events: seq<Event>)
      modifies this`isLoading
      ensures events == [Alert(SaveSucceeded), Closed]
      ensures !isLoading
    {
      events := [Alert(SaveSucceeded)];
      isLoading := false;
      events := events + [Closed];
    }
  }

  /** Every row holds a whole number between 1 and `count`. */
  predicate AllInRange(seqs: seq<SeqVal>, count: nat)
  {
    forall i :: 0 <= i < |seqs| ==> seqs[i].SNum? && 1 <= seqs[i].n <= count
  }

  /** The save guard as written reads only the flags of the last edit: a
      range error on one row is wiped by a valid edit of another. With two
      rows numbered 1 and 2, typing a number above 2 in the first (7, say)
      and then 1 or 2 in the second enables Save while the first row holds
      the out-of-range string. */
  lemma StaleRangeError(a: nat, b: nat)
    requires a > 2 && 1 <= b <= 2
    ensures var st0 := EditorState([SNum(1), SNum(2)], [], false);
      var st2 := Change(Change(st0, 0, NatToString(a)), 1, NatToString(b));
      !SaveDisabled(false, st2) && st2.sequences[0] == SStr(NatToString(a)) && !AllInRange(st2.sequences, 2)
  {
    WholeNumberEntry(a, 2);
    WholeNumberEntry(b, 2);
    NumeralConversions(a);
    NumeralNotEmpty(a);
    FirstEdit(NatToString(a));
    SecondEdit(NatToString(a), b);
  }

  /** An entry rejected as too large: the error, and the string kept. */
  lemma FirstEdit(t: String)
    ensures Apply(EditorState([SNum(1), SNum(2)], [], false), 0, Decision(SStr(t), TooLarge, false))
      == EditorState([SStr(t), SNum(2)], TooLarge, false)
  {
    assert [SNum(1), SNum(2)][0 := SStr(t)] == [SStr(t), SNum(2)];
  }

  /** Then an accepted entry in the second row: no error, and no duplicate,
      since a string never equals a number. */
  lemma SecondEdit(t: String, b: nat)
    requires ToNumber(t).Finite? && t != []
    ensures Apply(EditorState([SStr(t), SNum(2)], TooLarge, false), 1, Decision(SNum(b), [], true))
      == EditorState([SStr(t), SNum(b)], [], false)
  {
    var seqs := [SStr(t), SNum(b)];
    var st := EditorState([SStr(t), SNum(2)], TooLarge, false);
    assert st.sequences[1 := SNum(b)] == seqs;
    PairComparable(t, b);
    PairDistinct(t, b);
    assert Apply(st, 1, Decision(SNum(b), [], true)) == EditorState(seqs, [], HasDuplicate(ComparableValues(seqs)));
  }

  /** A string and a number are never a duplicate. */
  lemma PairDistinct(t: String, b: nat)
    ensures !HasDuplicate([SStr(t), SNum(b)])
  {
    var seqs := [SStr(t), SNum(b)];
    HasDuplicateIff(seqs);
    assert seqs[0] != seqs[1];
  }

  /** A numeral string and a positive number both pass the filter, and they differ. */
  lemma PairComparable(t: String, b: nat)
    requires ToNumber(t).Finite? && t != []
    ensures ComparableValues([SStr(t), SNum(b)]) == [SStr(t), SNum(b)]
  {
    var seqs := [SStr(t), SNum(b)];
    assert Comparable(seqs[0]) && Comparable(seqs[1]);
    assert seqs[1..] == [SNum(b)];
    assert seqs[1..][1..] == [];
  }

  lemma NumeralNotEmpty(n: nat)
    ensures NatToString(n) != []
  {
  }

  /** The guard evaluated over all rows rather than the last edit's flags. */
  predicate SaveDisabledCorrected(isLoading: bool, seqs: seq<SeqVal>)
  {
    isLoading || !AllInRange(seqs, |seqs|) || HasDuplicate(seqs)
  }

  /** With the corrected guard, an enabled Save means every row holds a
      distinct whole number between 1 and the number of rows. */
  lemma CorrectedSaveMeansValidOrder(seqs: seq<SeqVal>)
    requires !SaveDisabledCorrected(false, seqs)
    ensures forall i :: 0 <= i < |seqs| ==> seqs[i].SNum? && 1 <= seqs[i].n <= |seqs|
    ensures forall i, j :: 0 <= i < j < |seqs| ==> seqs[i].n != seqs[j].n
  {
    HasDuplicateIff(seqs);
    forall i, j | 0 <= i < j < |seqs|
      ensures seqs[i].n != seqs[j].n
    {
      assert seqs[i] != seqs[j];
    }
  }
}
