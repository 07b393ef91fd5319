/** The table of generated files: one row per file with its type icon, a
    spaced type label, its name and a status mark. */
module ResultsTable {
  import opened JsText
  import opened OutputFormats

  /** The icons of `getFileIcon`: diagram, document (green), video, and the
      grey document of the default branch. */
  datatype TypeIcon = DiagramIcon | DocumentIcon | VideoIcon | DefaultIcon

  /** `switch (type)` of `getFileIcon`. */
  function IconFor(fileType: String): (icon: TypeIcon)
    ensures icon == DefaultIcon <==> fileType != "bpmn" && fileType != "processDoc" && fileType != "trainingScript"
  {
    if fileType == "bpmn" then DiagramIcon
    else if fileType == "processDoc" then DocumentIcon
    else if fileType == "trainingScript" then VideoIcon
    else DefaultIcon
  }

  /** The status cell: a check for 'completed', a cross for anything else. */
  datatype StatusMark = Check | Cross

  function StatusFor(status: String): (mark: StatusMark)
    ensures mark == Check <==> status == "completed"
  {
    if status == "completed" then Check else Cross
  }

  /** The number of ASCII upper-case letters in `s`. */
  function UpperCount(s: String): nat
  {
    if s == [] then 0 else (if IsAsciiUpper(s[0]) then 1 else 0) + UpperCount(s[1..])
  }

  /** `type.replace(/([A-Z])/g, ' $1')`: a space in front of every ASCII
      upper-case letter, every other character kept. */
  function TypeLabel(t: String): (r: String)
    ensures |r| == |t| + UpperCount(t)
    ensures UpperCount(t) == 0 ==> r == t
  {
    if t == [] then []
    else if IsAsciiUpper(t[0]) then [' ', t[0]] + TypeLabel(t[1..])
    else [t[0]] + TypeLabel(t[1..])
  }

  /** Where each character of the type lands in its label: after the letters
      and the inserted spaces before it, with a space in front of it exactly
      when it is an ASCII upper-case letter. */
  lemma {:induction false} TypeLabelPlaces(t: String, i: nat)
    requires i < |t|
    ensures var p := i + UpperCount(t[..i]); var shift := if IsAsciiUpper(t[i]) then 1 else 0;
      p + shift < |TypeLabel(t)| && TypeLabel(t)[p + shift] == t[i]
      && (IsAsciiUpper(t[i]) ==> TypeLabel(t)[p] == ' ')
  {
    var head: String := if IsAsciiUpper(t[0]) then [' ', t[0]] else [t[0]];
    assert TypeLabel(t) == head + TypeLabel(t[1..]);
    if i == 0 {
      assert t[..0] == [];
    } else {
      TypeLabelPlaces(t[1..], i - 1);
      assert t[..i][0] == t[0] && t[..i][1..] == t[1..][..i - 1];
      assert UpperCount(t[..i]) == |head| - 1 + UpperCount(t[1..][..i - 1]);
    }
  }

  /** `s` with its spaces deleted. */
  function WithoutSpaces(s: String): String
  {
    if s == [] then [] else (if s[0] == ' ' then [] else [s[0]]) + WithoutSpaces(s[1..])
  }

  /** Deleting the spaces of the label of a space-free type gives the type back. */
  lemma {:induction false} LabelWithoutSpaces(t: String)
    requires ' ' !in t
    ensures WithoutSpaces(TypeLabel(t)) == t
  {
    if t != [] {
      LabelWithoutSpaces(t[1..]);
      var rest := TypeLabel(t[1..]);
      if IsAsciiUpper(t[0]) {
        assert ([' ', t[0]] + rest)[1..] == [t[0]] + rest;
        assert ([t[0]] + rest)[1..] == rest;
      } else {
        assert ([t[0]] + rest)[1..] == rest;
      }
      assert t == [t[0]] + t[1..];
    }
  }

  /** One table row. */
  datatype Row = Row(icon: TypeIcon, typeLabel: String, name: String, status: StatusMark)

  function RowFor(file: GeneratedFile): Row
  {
    Row(IconFor(file.fileType), TypeLabel(file.fileType), file.name, StatusFor(file.status))
  }

  /** `generatedFiles.map(...)`: one row per file, in list order. */
  function Rows(files: seq<GeneratedFile>): (rows: seq<Row>)
    ensures |rows| == |files|
    ensures forall i :: 0 <= i < |files| ==> rows[i] == RowFor(files[i])
  {
    if files == [] then [] else [RowFor(files[0])] + Rows(files[1..])
  }
}
