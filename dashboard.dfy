/** The dashboard page: free text plus attached documents, a simulated
    generation that fills in a fixed template after a delay, and the file
    list with a type icon per file. */
module Dashboard {
  import opened JsText
  import opened Seqs
  import opened BrowserFiles
  import JsNumber
  import ActionButtons

  /** The icon shown beside an attached file. */
  datatype FileIcon = PdfIcon | WordIcon | ExcelIcon | PowerPointIcon | GenericIcon

  /** `getFileIcon(fileName)`: chosen by the lower-cased text after the last dot. */
  function IconFor(fileName: String): (icon: FileIcon)
    ensures icon == PdfIcon <==> Extension(fileName) == "pdf"
    ensures icon == WordIcon <==> Extension(fileName) in ["doc", "docx"]
    ensures icon == ExcelIcon <==> Extension(fileName) in ["xls", "xlsx"]
    ensures icon == PowerPointIcon <==> Extension(fileName) in ["ppt", "pptx"]
  {
    var extension := Extension(fileName);
    if extension == "pdf" then PdfIcon
    else if extension == "doc" || extension == "docx" then WordIcon
    else if extension == "xls" || extension == "xlsx" then ExcelIcon
    else if extension == "ppt" || extension == "pptx" then PowerPointIcon
    else GenericIcon
  }

  /** Only the last extension counts, in any letter case: "report.final.PDF"
      shows the PDF icon, "archive.pdf.zip" the generic one. */
  lemma IconByLastExtension(stem: String, ext: String)
    requires '.' !in ext
    ensures IconFor(stem + "." + ext) == IconFor(ToLower(ext))
  {
    ExtensionAfterLastDot(stem, ext);
    ExtensionSpec(ToLower(ext));
    LowerKeepsDotFree(ext);
    ToLowerIdempotent(ext);
  }

  lemma {:induction false} LowerKeepsDotFree(s: String)
    requires '.' !in s
    ensures '.' !in ToLower(s)
  {
    if s != [] {
      LowerKeepsDotFree(s[1..]);
    }
  }

  lemma {:induction false} ToLowerIdempotent(s: String)
    ensures ToLower(ToLower(s)) == ToLower(s)
  {
    if s != [] {
      ToLowerIdempotent(s[1..]);
    }
  }

  /** One entry of `attachedFiles`: `{ id, file, name, size, type }`. */
  datatype AttachedFile = AttachedFile(id: int, file: BrowserFile, name: String, size: nat, mimeType: String)

  /** The entry `handleFileUpload` makes for a file under a given id. */
  function EntryFor(id: int, f: BrowserFile): (e: AttachedFile)
    ensures e.id == id && e.file == f && e.name == f.name && e.size == f.size && e.mimeType == f.mimeType
  {
    AttachedFile(id, f, f.name, f.size, f.mimeType)
  }

  predicate HasId(e: AttachedFile, id: int)
  {
    e.id == id
  }

  /** `prev.filter(file => file.id !== fileId)`. */
  function WithoutId(files: seq<AttachedFile>, id: int): (r: seq<AttachedFile>)
    ensures forall i :: 0 <= i < |r| ==> r[i].id != id && r[i] in files
    ensures forall i :: 0 <= i < |files| && files[i].id != id ==> files[i] in r
    ensures IsSubsequence(r, files)
  {
    Filter(files, (e: AttachedFile) => !HasId(e, id))
  }

  /** Removing the id of a freshly uploaded file restores the earlier list. */
  lemma UploadThenRemove(prev: seq<AttachedFile>, f: BrowserFile, id: int)
    requires forall i :: 0 <= i < |prev| ==> prev[i].id != id
    ensures WithoutId(prev + [EntryFor(id, f)], id) == prev
  {
    var keep := (e: AttachedFile) => !HasId(e, id);
    FilterSnoc(prev, EntryFor(id, f), keep);
    FilterKeepsAll(prev, keep);
  }

  /** Filtering with a test every element passes changes nothing. */
  lemma {:induction false} FilterKeepsAll<T>(s: seq<T>, keep: T -> bool)
    requires forall i :: 0 <= i < |s| ==> keep(s[i])
    ensures Filter(s, keep) == s
  {
    if s != [] {
      FilterKeepsAll(s[1..], keep);
    }
  }

  const TemplateHead: String := "Generated content based on your input:\n\nText: "
  const TemplateMiddle: String := "\n\nFiles processed: "
  const TemplateTail: String := "\n\nThis is where your AI-generated content would appear..."

  /** The template `handleGenerate` fills in with the text and the number of files. */
  function GeneratedText(text: String, fileCount: nat): String
  {
    TemplateHead + text + TemplateMiddle + NatToString(fileCount) + TemplateTail
  }

  /** The file count can be read back from the generated text: it is the
      word after the last space once the closing sentence is cut off. */
  lemma CountReadBack(text: String, fileCount: nat)
    ensures var g := GeneratedText(text, fileCount);
      |g| >= |TemplateTail| && LastSegment(g[..|g| - |TemplateTail|], ' ') == NatToString(fileCount)
  {
    var g := GeneratedText(text, fileCount);
    var a := TemplateHead + text + "\n\nFiles processed:";
    assert TemplateHead + text + TemplateMiddle == a + [' '];
    assert g[..|g| - |TemplateTail|] == a + [' '] + NatToString(fileCount);
    NoSpaceInNumeral(fileCount);
    LastSegmentOfAppend(a, NatToString(fileCount), ' ');
  }

  lemma {:induction false} NoSpaceInNumeral(n: nat)
    ensures ' ' !in NatToString(n)
  {
    if n >= 10 {
      NoSpaceInNumeral(n / 10);
    }
  }

  /** Different inputs give different generated texts. */
  lemma GeneratedTextInjective(t1: String, n1: nat, t2: String, n2: nat)
    requires GeneratedText(t1, n1) == GeneratedText(t2, n2)
    ensures t1 == t2 && n1 == n2
  {
    CountReadBack(t1, n1);
    CountReadBack(t2, n2);
    JsNumber.DigitsOfNatToString(n1);
    JsNumber.DigitsOfNatToString(n2);
    TextAt(t1, n1);
    TextAt(t2, n2);
  }

  /** Where the text sits inside the generated string. */
  lemma TextAt(t: String, n: nat)
    ensures var g := GeneratedText(t, n);
      |TemplateHead| + |TemplateMiddle| + |NatToString(n)| + |TemplateTail| <= |g|
      && g[|TemplateHead|..|g| - |TemplateMiddle| - |NatToString(n)| - |TemplateTail|] == t
  {
    var g := GeneratedText(t, n);
    assert g == TemplateHead + t + (TemplateMiddle + NatToString(n) + TemplateTail);
  }

  /** `disabled={(!textContent.trim() && attachedFiles.length === 0) || isGenerating}`. */
  predicate GenerateDisabled(isGenerating: bool, textContent: String, attachedCount: nat)
  {
    (IsBlank(textContent) && attachedCount == 0) || isGenerating
  }

  /** Unlike the generation form's button, the dashboard's trims the text:
      white space alone disables it here and enables it there. */
  lemma WhitespaceDisablesHere(t: String)
    requires t != [] && AllSpace(t)
    ensures GenerateDisabled(false, t, 0)
    ensures !ActionButtons.GenerateDisabled(false, t, 0)
  {
    BlankIffAllSpace(t);
  }

  /** What the pending timer of `handleGenerate` captured when it was set:
      the closure reads the text and file list of that render. */
  datatype PendingGeneration = PendingGeneration(text: String, fileCount: nat)

  class Page {
    var attachedFiles: seq<AttachedFile>
    var textContent: String
    var generatedContent: String
    var isGenerating: bool

    constructor()
      ensures attachedFiles == [] && textContent == [] && generatedContent == [] && !isGenerating
    {
      attachedFiles := [];
      textContent := [];
      generatedContent := [];
      isGenerating := false;
    }

    /** The results panel shows while generating or once there is content. */
    predicate ResultsShown()
      reads this
    {
      generatedContent != [] || isGenerating
    }

    /** The textarea's `onChange`. */
    method SetText(t: String)
      modifies this`textContent
      ensures textContent == t
    {
      textContent := t;
    }

    /** `handleFileUpload`: one entry per chosen file, appended in order.
        The ids (`Date.now() + Math.random()`) are supplied by the caller. */
    method FileUpload(files: seq<BrowserFile>, ids: seq<int>)
      requires |ids| == |files|
      modifies this`attachedFiles
      ensures |attachedFiles| == |old(attachedFiles)| + |files|
      ensures attachedFiles[..|old(attachedFiles)|] == old(attachedFiles)
      ensures forall i :: 0 <= i < |files| ==> attachedFiles[|old(attachedFiles)| + i] == EntryFor(ids[i], files[i])
    {
      var newFiles := seq(|files|, i requires 0 <= i < |files| => EntryFor(ids[i], files[i]));
      attachedFiles := attachedFiles + newFiles;
    }

    /** `handleRemoveFile(fileId)`. */
    method RemoveFile(fileId: int)
      modifies this`attachedFiles
      ensures attachedFiles == WithoutId(old(attachedFiles), fileId)
    {
      attachedFiles := WithoutId(attachedFiles, fileId);
    }

    /** The click on Generate Content: the flag goes up and a timer is set
        over the current text and file count. */
    method Generate() returns (pending: PendingGeneration)
      modifies this`isGenerating
      ensures isGenerating
      ensures pending == PendingGeneration(textContent, |attachedFiles|)
    {
      isGenerating := true;
      pending := PendingGeneration(textContent, |attachedFiles|);
    }

    /** The timer's callback: the captured values fill the template, even if
        the text or the files changed in the meantime. */
    method GenerationFinished(pending: PendingGeneration)
      modifies this`generatedContent, this`isGenerating
      ensures generatedContent == GeneratedText(pending.text, pending.fileCount)
      ensures !isGenerating && ResultsShown()
    {
      generatedContent := GeneratedText(pending.text, pending.fileCount);
      isGenerating := false;
    }

    /** `handleClearAll`: the generating flag is left as it is, so a pending
        timer still fills in the template afterwards. */
    method ClearAll()
      modifies this`textContent, this`attachedFiles, this`generatedContent
      ensures textContent == [] && attachedFiles == [] && generatedContent == []
      ensures ResultsShown() <==> isGenerating
    {
      textContent := [];
      attachedFiles := [];
      generatedContent := [];
    }
  }
}
