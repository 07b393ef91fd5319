/** The analysis view: fenced-block extraction, the split of a model response
    into numbered `### N. ` parts, their classification by title, the section
    record built for each kind, which panels are shown, and the set of
    sections whose copy button shows "Copied!". */
module AnalysisResults {
  import opened Wrappers
  import opened JsText
  import opened Seqs
  import OutputFormats

  // ---------------------------------------------------------------------
  // Fenced blocks: /```lang\n([\s\S]*?)\n```/
  // ---------------------------------------------------------------------

  /** The closing fence `\n```` that ends the lazy group. */
  const Closer: String := "\n```"

  /** The opening fence `` ```lang\n ``. */
  function Opener(lang: String): String
  {
    "```" + lang + "\n"
  }

  /** How the regular-expression engine matches `opener([\s\S]*?)\n```` in
      `text`: start positions are tried from `start` upwards; at each one
      the opener must match and the lazy group grows until the nearest
      closer. The first start position that succeeds gives the group. */
  function MatchFrom(text: String, opener: String, start: nat): Option<String>
    decreases |text| - start
  {
    if start > |text| then None
    else if StartsWith(text[start..], opener) && IndexOf(text, Closer, start + |opener|).Some? then
      Some(text[start + |opener|..IndexOf(text, Closer, start + |opener|).value])
    else MatchFrom(text, opener, start + 1)
  }

  /** `extractCodeFromMarkdown(text, lang)`, with `None` for null. */
  function ExtractCode(text: String, lang: String): Option<String>
  {
    MatchFrom(text, Opener(lang), 0)
  }

  /** `extractJsonFromMarkdown(text)`: the same expression with `json`. */
  function ExtractJson(text: String): Option<String>
  {
    ExtractCode(text, "json")
  }

  /** `extractXmlFromMarkdown(text)`: the same expression with `xml`. */
  function ExtractXml(text: String): Option<String>
  {
    ExtractCode(text, "xml")
  }

  /** The reference reading of the expression: the text between the first
      opener at or after `from` and the first closer after that opener, and
      nothing when either is missing. */
  function FirstBlock(text: String, opener: String, from: nat): Option<String>
  {
    match IndexOf(text, opener, from)
    case None => None
    case Some(i) =>
      match IndexOf(text, Closer, i + |opener|)
      case None => None
      case Some(j) => Some(text[i + |opener|..j])
  }

  /** The engine's scan finds exactly the first opener and the first closer
      after it: when the first opener has no closer after it, no later
      opener can have one either. */
  lemma {:induction false} MatchFromIsFirstBlock(text: String, opener: String, start: nat)
    ensures MatchFrom(text, opener, start) == FirstBlock(text, opener, start)
    decreases |text| - start
  {
    if start <= |text| {
      MatchFromIsFirstBlock(text, opener, start + 1);
      if StartsWith(text[start..], opener) {
        OpenerAtStart(text, opener, start);
      } else {
        NoOpenerAt(text, opener, start);
      }
    }
  }

  /** Where the opener does not match, both readings move on to the next position. */
  lemma NoOpenerAt(text: String, opener: String, start: nat)
    requires start <= |text| && !StartsWith(text[start..], opener)
    ensures MatchFrom(text, opener, start) == MatchFrom(text, opener, start + 1)
    ensures FirstBlock(text, opener, start) == FirstBlock(text, opener, start + 1)
  {
    assert IndexOf(text, opener, start) == IndexOf(text, opener, start + 1);
  }

  /** The scan step at a position where the opener matches. */
  lemma OpenerAtStart(text: String, opener: String, start: nat)
    requires start <= |text| && StartsWith(text[start..], opener)
    requires MatchFrom(text, opener, start + 1) == FirstBlock(text, opener, start + 1)
    ensures MatchFrom(text, opener, start) == FirstBlock(text, opener, start)
  {
    FirstOpenerAt(text, opener, start);
    if IndexOf(text, Closer, start + |opener|).None? {
      NoLaterBlock(text, opener, start);
    }
  }

  /** Where the opener matches at `start`, both readings take the text up to
      the first closer after it, and the scan moves on when there is none. */
  lemma FirstOpenerAt(text: String, opener: String, start: nat)
    requires start <= |text| && StartsWith(text[start..], opener)
    ensures var c := IndexOf(text, Closer, start + |opener|);
      FirstBlock(text, opener, start) == (if c.Some? then Some(text[start + |opener|..c.value]) else None)
      && MatchFrom(text, opener, start) == (if c.Some? then Some(text[start + |opener|..c.value])
           else MatchFrom(text, opener, start + 1))
  {
    assert IndexOf(text, opener, start) == Some(start);
  }

  /** No closer after the opener at `start` means no closer after any later opener. */
  lemma NoLaterBlock(text: String, opener: String, start: nat)
    requires start + |opener| <= |text|
    requires IndexOf(text, Closer, start + |opener|).None?
    ensures FirstBlock(text, opener, start + 1).None?
  {
    match IndexOf(text, opener, start + 1)
    case None =>
    case Some(i) =>
      if IndexOf(text, Closer, i + |opener|).Some? {
        var j := IndexOf(text, Closer, i + |opener|).value;
        assert StartsWith(text[j..], Closer);
        assert false;
      }
  }

  /** `extractCodeFromMarkdown(text, lang)` is the body between the first
      `` ```lang\n `` and the first `\n```` after it, or null. */
  lemma ExtractCodeSpec(text: String, lang: String)
    ensures ExtractCode(text, lang) == FirstBlock(text, Opener(lang), 0)
  {
    MatchFromIsFirstBlock(text, Opener(lang), 0);
  }

  /** An extracted body never contains the closing fence. */
  lemma ExtractedHasNoCloser(text: String, lang: String)
    ensures var r := ExtractCode(text, lang); r.Some? ==> !Contains(r.value, Closer)
  {
    ExtractCodeSpec(text, lang);
    var o := Opener(lang);
    match IndexOf(text, o, 0)
    case None =>
    case Some(i) =>
      match IndexOf(text, Closer, i + |o|)
      case None =>
      case Some(j) =>
        var body := text[i + |o|..j];
        ContainsIff(body, Closer);
        if Contains(body, Closer) {
          var k: nat :| OccursAt(body, Closer, k);
          OccursInSlice(text, Closer, i + |o|, j, k);
          assert false;
        }
  }

  /** An occurrence inside `text[from..to]` is an occurrence in `text` that
      `IndexOf` sees. */
  lemma OccursInSlice(text: String, p: String, from: nat, to: nat, k: nat)
    requires from <= to <= |text| && OccursAt(text[from..to], p, k)
    ensures from + k + |p| <= to && StartsWith(text[from + k..], p)
  {
    assert text[from..to][k..k + |p|] == p;
    forall i | 0 <= i < |p| ensures text[from + k + i] == p[i] {
      assert text[from..to][k..k + |p|][i] == text[from + k + i];
    }
    assert text[from + k..][..|p|] == p;
  }

  /** `text.replace(/p1|p2|.../g, '')`: scanning left to right, the first
      alternative that matches at the current position is deleted and the
      scan resumes after it; other characters are kept. */
  function RemoveAll(s: String, pats: seq<String>): (r: String)
    requires forall i :: 0 <= i < |pats| ==> pats[i] != []
    ensures IsSubsequence(r, s)
    ensures (forall i :: 0 <= i < |pats| ==> !Contains(s, pats[i])) ==> r == s
    decreases |s|
  {
    match PatternAt(s, pats)
    case Some(p) =>
      var r := RemoveAll(s[|p|..], pats);
      SubsequenceOfSuffix(r, s, |p|);
      r
    case None =>
      if s == [] then []
      else
        var rest := RemoveAll(s[1..], pats);
        assert (forall i :: 0 <= i < |pats| ==> !Contains(s, pats[i])) ==> rest == s[1..];
        assert ([s[0]] + rest)[1..] == rest;
        [s[0]] + rest
  }

  /** The first alternative that matches at the start of `s`. */
  function PatternAt(s: String, pats: seq<String>): (r: Option<String>)
    ensures r.Some? ==> r.value in pats && StartsWith(s, r.value)
    ensures r.None? ==> forall i :: 0 <= i < |pats| ==> !StartsWith(s, pats[i])
  {
    if pats == [] then None
    else if StartsWith(s, pats[0]) then Some(pats[0])
    else PatternAt(s, pats[1..])
  }

  /** The alternation `/```plaintext\n|\n```/g`. */
  const FenceMarkers: seq<String> := ["```plaintext\n", "\n```"]

  /** The pattern `/#### /g`. */
  const SubheadingMarker: seq<String> := ["#### "]

  // ---------------------------------------------------------------------
  // Numbered parts: output.split(/### \d+\.\s+/)
  // ---------------------------------------------------------------------

  /** The number of leading white-space characters of `t`: the greedy run `\s+`. */
  function SpaceRun(t: String): (r: nat)
    ensures r <= |t|
  {
    if t != [] && IsSpace(t[0]) then 1 + SpaceRun(t[1..]) else 0
  }

  /** The length of the match of `\d+\.\s+` at the start of `u`, once `d`
      digits have been read. Both runs are greedy: `\d+` can only match the
      whole digit run, since a shorter one leaves a digit where the `.` must
      be, and `\s+` ends the expression, so its longest run is taken. */
  function NumberDotSpaces(u: String, d: nat): (r: Option<nat>)
    ensures r.Some? ==> 2 <= r.value <= |u| && (d == 0 ==> r.value >= 3)
  {
    if u != [] && IsDigit(u[0]) then
      match NumberDotSpaces(u[1..], d + 1)
      case None => None
      case Some(n) => Some(n + 1)
    else if d > 0 && u != [] && u[0] == '.' && SpaceRun(u[1..]) > 0 then Some(1 + SpaceRun(u[1..]))
    else None
  }

  /** The length of the match of `/### \d+\.\s+/` at the start of `t`, if any. */
  function HeadingAt(t: String): (r: Option<nat>)
    ensures r.Some? ==> 7 <= r.value <= |t|
  {
    if |t| < 4 || t[0] != '#' || t[1] != '#' || t[2] != '#' || t[3] != ' ' then None
    else
      match NumberDotSpaces(t[4..], 0)
      case None => None
      case Some(n) => Some(4 + n)
  }

  /** `String.prototype.split` with a separator expression: `p` is the start
      of the current piece and `q` the position being tried. */
  function SplitFrom(s: String, p: nat, q: nat): (parts: seq<String>)
    requires p <= q <= |s|
    ensures |parts| >= 1
    decreases |s| - q
  {
    if q == |s| then [s[p..]]
    else
      match HeadingAt(s[q..])
      case Some(l) => [s[p..q]] + SplitFrom(s, q + l, q + l)
      case None => SplitFrom(s, p, q + 1)
  }

  /** `output.split(/### \d+\.\s+/)`. */
  function SplitHeadings(s: String): (parts: seq<String>)
    ensures |parts| >= 1
  {
    SplitFrom(s, 0, 0)
  }

  /** Splitting a suffix gives the same pieces as the corresponding tail of
      the scan of the whole string. */
  lemma {:induction false} SplitFromShift(s: String, k: nat, p: nat, q: nat)
    requires k <= p <= q <= |s|
    ensures SplitFrom(s, p, q) == SplitFrom(s[k..], p - k, q - k)
    decreases |s| - q
  {
    if q < |s| {
      var h := HeadingAt(s[q..]);
      if h.Some? {
        SplitFromShift(s, k, q + h.value, q + h.value);
        ShiftAtHeading(s, k, p, q, h.value);
      } else {
        SplitFromShift(s, k, p, q + 1);
        ShiftPastPosition(s, k, p, q);
      }
    } else {
      ShiftAtEnd(s, k, p);
    }
  }

  /** At the end of the text both scans return the last piece. */
  lemma ShiftAtEnd(s: String, k: nat, p: nat)
    requires k <= p <= |s|
    ensures SplitFrom(s, p, |s|) == SplitFrom(s[k..], p - k, |s| - k)
  {
    var t := s[k..];
    assert |t| == |s| - k;
    assert t[p - k..] == s[p..];
  }

  /** The shifted scan cuts at the same heading. */
  lemma ShiftAtHeading(s: String, k: nat, p: nat, q: nat, l: nat)
    requires k <= p <= q < |s| && HeadingAt(s[q..]) == Some(l)
    requires SplitFrom(s, q + l, q + l) == SplitFrom(s[k..], q + l - k, q + l - k)
    ensures SplitFrom(s, p, q) == SplitFrom(s[k..], p - k, q - k)
  {
    var t := s[k..];
    assert t[q - k..] == s[q..];
    assert HeadingAt(t[q - k..]) == Some(l);
    assert SplitFrom(t, p - k, q - k) == [t[p - k..q - k]] + SplitFrom(t, q + l - k, q + l - k);
    assert t[p - k..q - k] == s[p..q];
  }

  /** The shifted scan also moves past a position where no heading starts. */
  lemma ShiftPastPosition(s: String, k: nat, p: nat, q: nat)
    requires k <= p <= q < |s| && HeadingAt(s[q..]).None?
    requires SplitFrom(s, p, q + 1) == SplitFrom(s[k..], p - k, q + 1 - k)
    ensures SplitFrom(s, p, q) == SplitFrom(s[k..], p - k, q - k)
  {
    var t := s[k..];
    assert t[q - k..] == s[q..];
  }

  /** Where the current piece started only affects the first piece. */
  lemma {:induction false} SplitFromTail(s: String, p: nat, p': nat, q: nat)
    requires p <= q && p' <= q && q <= |s|
    ensures SplitFrom(s, p, q)[1..] == SplitFrom(s, p', q)[1..]
    decreases |s| - q
  {
    if q < |s| && HeadingAt(s[q..]).None? {
      SplitFromTail(s, p, p', q + 1);
    }
  }

  /** Positions where no heading starts can be skipped. */
  lemma {:induction false} SplitFromSkip(s: String, p: nat, q: nat, k: nat)
    requires p <= q <= k <= |s|
    requires forall i :: q <= i < k ==> HeadingAt(s[i..]).None?
    ensures SplitFrom(s, p, q) == SplitFrom(s, p, k)
    decreases k - q
  {
    if q < k {
      SplitFromSkip(s, p, q + 1, k);
    }
  }

  /** The parts after the intro: `parts.forEach` returns at index 0. */
  function Parts(output: String): seq<String>
  {
    SplitHeadings(output)[1..]
  }

  /** Text in front of the first heading never contributes a part: when no
      heading starts inside `intro`, the parts of `intro + rest` are those
      of `rest`. */
  lemma IntroIgnored(intro: String, rest: String)
    requires forall i :: 0 <= i < |intro| ==> HeadingAt((intro + rest)[i..]).None?
    ensures Parts(intro + rest) == Parts(rest)
  {
    var s := intro + rest;
    var k := |intro|;
    SplitFromSkip(s, 0, 0, k);
    SplitFromTail(s, 0, k, k);
    SplitFromShift(s, k, k, k);
    assert s[k..] == rest;
  }

  // ---------------------------------------------------------------------
  // One part: title, content, kind
  // ---------------------------------------------------------------------

  /** `lines[0].trim()` of `lines = part.split('\n')`. */
  function Title(part: String): String
  {
    Trim(Split(part, '\n')[0])
  }

  /** `lines.slice(1).join('\n').trim()`. */
  function Content(part: String): String
  {
    Trim(Join(Split(part, '\n')[1..], '\n'))
  }

  /** The title is the trimmed first line and the content the trimmed text
      after the first line break (empty when there is none). */
  lemma TitleAndContent(part: String)
    ensures Title(part) == Trim(BeforeFirst(part, '\n'))
    ensures Content(part) == Trim(AfterFirst(part, '\n'))
  {
    SplitHeadTail(part, '\n');
  }

  /** The five kinds of section, in the order their titles are checked. */
  datatype Kind = Summary | Bpmn | ProcessDoc | SynthesiaScript | SynthesiaMedia

  const AllKinds: set<Kind> := {Summary, Bpmn, ProcessDoc, SynthesiaScript, SynthesiaMedia}

  /** The title substring that selects each kind. */
  function Marker(k: Kind): String
  {
    match k
    case Summary => "SUMMARY TABLE"
    case Bpmn => "BPMN SWIMLANE DIAGRAM"
    case ProcessDoc => "PROCESS DESCRIPTION DOCUMENT"
    case SynthesiaScript => "SYNTHESIA SCRIPT"
    case SynthesiaMedia => "SYNTHESIA MEDIA MAPPING"
  }

  /** Position of a kind in the `if … else if` chain. */
  function Rank(k: Kind): nat
  {
    match k
    case Summary => 0
    case Bpmn => 1
    case ProcessDoc => 2
    case SynthesiaScript => 3
    case SynthesiaMedia => 4
  }

  /** The `if (title.includes(…)) … else if …` chain. */
  function Classify(title: String): Option<Kind>
  {
    if Contains(title, "SUMMARY TABLE") then Some(Summary)
    else if Contains(title, "BPMN SWIMLANE DIAGRAM") then Some(Bpmn)
    else if Contains(title, "PROCESS DESCRIPTION DOCUMENT") then Some(ProcessDoc)
    else if Contains(title, "SYNTHESIA SCRIPT") then Some(SynthesiaScript)
    else if Contains(title, "SYNTHESIA MEDIA MAPPING") then Some(SynthesiaMedia)
    else None
  }

  /** The first matching rule wins: a title has kind `k` exactly when it
      contains `k`'s marker and the marker of no earlier kind. */
  lemma ClassifyFirstMatch(title: String, k: Kind)
    ensures Classify(title) == Some(k) <==>
      Contains(title, Marker(k)) && forall k' :: Rank(k') < Rank(k) ==> !Contains(title, Marker(k'))
  {
    if Classify(title) == Some(k) {
      forall k' | Rank(k') < Rank(k) ensures !Contains(title, Marker(k')) {
        match k'
        case Summary =>
        case Bpmn =>
        case ProcessDoc =>
        case SynthesiaScript =>
        case SynthesiaMedia =>
      }
    } else if Contains(title, Marker(k)) {
      ClassifyAtMost(title, k);
      var k0 := Classify(title).value;
      RankInjective(k0, k);
      assert Rank(k0) < Rank(k) && Contains(title, Marker(k0));
    }
  }

  /** A title containing `k`'s marker is classified, as `k` or an earlier kind. */
  lemma ClassifyAtMost(title: String, k: Kind)
    requires Contains(title, Marker(k))
    ensures Classify(title).Some? && Rank(Classify(title).value) <= Rank(k)
    ensures Contains(title, Marker(Classify(title).value))
  {
    match k
    case Summary =>
    case Bpmn =>
    case ProcessDoc =>
    case SynthesiaScript =>
    case SynthesiaMedia =>
  }

  lemma RankInjective(a: Kind, b: Kind)
    ensures Rank(a) == Rank(b) ==> a == b
  {
  }

  /** A part whose title contains none of the markers is dropped. */
  lemma ClassifyNone(title: String)
    ensures Classify(title).None? <==> forall k :: !Contains(title, Marker(k))
  {
    if Classify(title).None? {
      forall k ensures !Contains(title, Marker(k)) {
        match k
        case Summary =>
        case Bpmn =>
        case ProcessDoc =>
        case SynthesiaScript =>
        case SynthesiaMedia =>
      }
    } else {
      assert Contains(title, Marker(Classify(title).value));
    }
  }

  // ---------------------------------------------------------------------
  // Sections
  // ---------------------------------------------------------------------

  /** What a panel shows: plain text, or the pretty-printed JSON that
      `JSON.stringify(JSON.parse(source), null, 2)` makes of a body. */
  datatype Display = Plain(text: String) | PrettyJson(source: String)

  /** `{raw, json, display}`, `{raw, xml, display}` or `{raw, text, display}`. */
  datatype Section =
    | JsonSection(raw: String, json: Option<String>, display: Display)
    | XmlSection(raw: String, xml: Option<String>, display: Display)
    | TextSection(raw: String, text: String, display: Display)

  /** An extraction result used as a condition: null and "" are falsy. */
  predicate Truthy(o: Option<String>)
  {
    o.Some? && o.value != []
  }

  /** The section record that a part of kind `k` with this content produces. */
  function SectionFor(k: Kind, content: String): (s: Section)
    ensures s.raw == content
  {
    match k
    case Summary | ProcessDoc =>
      var j := ExtractJson(content);
      JsonSection(content, j, if Truthy(j) then PrettyJson(j.value) else Plain(content))
    case Bpmn =>
      var x := ExtractXml(content);
      XmlSection(content, x, Plain(if Truthy(x) then x.value else content))
    case SynthesiaScript =>
      var clean := RemoveAll(RemoveAll(content, FenceMarkers), SubheadingMarker);
      TextSection(content, clean, Plain(clean))
    case SynthesiaMedia =>
      var m := ExtractCode(content, "plaintext");
      var t := if Truthy(m) then m.value else RemoveAll(content, FenceMarkers);
      TextSection(content, t, Plain(t))
  }

  /** The BPMN panel shows the body of the first ```xml block when that body
      is non-empty, and the whole content otherwise. */
  lemma BpmnDisplay(content: String)
    ensures var b := FirstBlock(content, Opener("xml"), 0);
      SectionFor(Bpmn, content).display == Plain(if b.Some? && b.value != [] then b.value else content)
  {
    ExtractCodeSpec(content, "xml");
  }

  /** The JSON panels pretty-print the first ```json body when it is non-empty. */
  lemma JsonDisplay(k: Kind, content: String)
    requires k == Summary || k == ProcessDoc
    ensures var b := FirstBlock(content, Opener("json"), 0);
      SectionFor(k, content) == JsonSection(content, b,
        if b.Some? && b.value != [] then PrettyJson(b.value) else Plain(content))
  {
    ExtractCodeSpec(content, "json");
  }

  /** The script text keeps the content's characters in order minus the
      markers, is shown as is, and is the content itself when the content has
      no fence and no `#### `. */
  lemma ScriptText(content: String)
    ensures var s := SectionFor(SynthesiaScript, content);
      s.TextSection? && s.display == Plain(s.text) && IsSubsequence(s.text, content)
      && (!Contains(content, "```plaintext\n") && !Contains(content, "\n```") && !Contains(content, "#### ")
          ==> s.text == content)
  {
    var once := RemoveAll(content, FenceMarkers);
    var clean := RemoveAll(once, SubheadingMarker);
    SubsequenceTransitive(clean, once, content);
  }

  /** A subsequence of a subsequence is a subsequence. */
  lemma {:induction false} SubsequenceTransitive<T>(a: seq<T>, b: seq<T>, c: seq<T>)
    requires IsSubsequence(a, b) && IsSubsequence(b, c)
    ensures IsSubsequence(a, c)
    decreases |c|
  {
    if a != [] {
      assert b != [] && c != [];
      if b[0] == c[0] && IsSubsequence(b[1..], c[1..]) {
        if a[0] == b[0] && IsSubsequence(a[1..], b[1..]) {
          SubsequenceTransitive(a[1..], b[1..], c[1..]);
        } else {
          SubsequenceTransitive(a, b[1..], c[1..]);
        }
      } else {
        SubsequenceTransitive(a, b, c[1..]);
      }
    }
  }

  /** The kind of a part, by its title. */
  function KindOf(part: String): Option<Kind>
  {
    Classify(Title(part))
  }

  /** What visiting one part assigns: its kind's key and its section, or
      nothing for an unclassified part. */
  function Entry(part: String): (r: Option<(Kind, Section)>)
    ensures r.Some? <==> KindOf(part).Some?
    ensures r.Some? ==> r.value.0 == KindOf(part).value && r.value.1 == SectionFor(r.value.0, Content(part))
  {
    match KindOf(part)
    case None => None
    case Some(k) => Some((k, SectionFor(k, Content(part))))
  }

  function Entries(parts: seq<String>): (r: seq<Option<(Kind, Section)>>)
    ensures |r| == |parts| && forall i :: 0 <= i < |parts| ==> r[i] == Entry(parts[i])
  {
    seq(|parts|, i requires 0 <= i < |parts| => Entry(parts[i]))
  }

  /** The index of the last of the first `n` assignments made to key `k`. */
  function LastOfKind<T>(entries: seq<Option<(Kind, T)>>, k: Kind, n: nat): (r: Option<nat>)
    requires n <= |entries|
    ensures r.Some? ==> (r.value < n && entries[r.value].Some? && entries[r.value].value.0 == k
      && forall j :: r.value < j < n ==> !(entries[j].Some? && entries[j].value.0 == k))
    ensures r.None? ==> forall j :: 0 <= j < n ==> !(entries[j].Some? && entries[j].value.0 == k)
  {
    if n == 0 then None
    else if entries[n - 1].Some? && entries[n - 1].value.0 == k then Some(n - 1)
    else LastOfKind(entries, k, n - 1)
  }

  /** The object built by the first `n` assignments `obj[key] = value`: a
      key is present exactly when it was assigned, and holds its last value. */
  function Latest<T>(entries: seq<Option<(Kind, T)>>, n: nat): map<Kind, T>
    requires n <= |entries|
  {
    if n == 0 then map[]
    else
      var prev := Latest(entries, n - 1);
      if entries[n - 1].Some? then prev[entries[n - 1].value.0 := entries[n - 1].value.1] else prev
  }

  /** A key is present after the first `n` assignments exactly when one of
      them assigned it, and it holds the value of the last one. */
  lemma {:induction false} LatestSpec<T>(entries: seq<Option<(Kind, T)>>, n: nat, k: Kind)
    requires n <= |entries|
    ensures k in Latest(entries, n) <==> LastOfKind(entries, k, n).Some?
    ensures k in Latest(entries, n) ==>
      Latest(entries, n)[k] == entries[LastOfKind(entries, k, n).value].value.1
  {
    if n > 0 {
      LatestSpec(entries, n - 1, k);
    }
  }

  /** One more assignment: the object gains or overwrites that key only. */
  lemma LatestStep<T>(entries: seq<Option<(Kind, T)>>, n: nat)
    requires n < |entries|
    ensures Latest(entries, n + 1) ==
      if entries[n].Some? then Latest(entries, n)[entries[n].value.0 := entries[n].value.1] else Latest(entries, n)
  {
  }

  /** Visiting the part at `n` assigns what its title and content say. */
  lemma VisitPart(parts: seq<String>, n: nat)
    requires n < |parts|
    ensures var kind := Classify(Title(parts[n]));
      Latest(Entries(parts), n + 1) ==
        if kind.Some? then Latest(Entries(parts), n)[kind.value := SectionFor(kind.value, Content(parts[n]))]
        else Latest(Entries(parts), n)
  {
    LatestStep(Entries(parts), n);
  }

  /** The sections object of an analysis output. */
  function Sections(output: String): map<Kind, Section>
  {
    var parts := Parts(output);
    Latest(Entries(parts), |parts|)
  }

  /** `parseAnalysisOutput(output)`: visits the parts in order, skips the
      intro, and assigns the section of each classified part to its kind. */
  method ParseAnalysisOutput(output: String) returns (sections: map<Kind, Section>)
    ensures sections == Sections(output)
  {
    var parts := SplitHeadings(output);
    sections := map[];
    // index 0 is the intro, which the visit skips
    var index := 1;
    while index < |parts|
      invariant 1 <= index <= |parts|
      invariant sections == Latest(Entries(parts[1..]), index - 1)
    {
      var part := parts[index];
      VisitPart(parts[1..], index - 1);
      var kind, section := ReadPart(part);
      if kind.Some? {
        sections := sections[kind.value := section];
      }
      index := index + 1;
    }
  }

  /** One iteration of the visit: the part's title and content, its kind, and
      the section built for that kind. */
  method ReadPart(part: String) returns (kind: Option<Kind>, section: Section)
    ensures kind == Classify(Title(part))
    ensures kind.Some? ==> section == SectionFor(kind.value, Content(part))
  {
    var title := Title(part);
    var content := Content(part);
    kind := Classify(title);
    section := if kind.Some? then SectionFor(kind.value, content) else TextSection(content, content, Plain(content));
  }

  /** A kind has a section exactly when some part after the intro has that
      kind; the section is built from the last such part. */
  lemma LastPartWins(output: String, k: Kind)
    ensures var parts := Parts(output); var s := Sections(output);
      (k in s <==> exists j :: 0 <= j < |parts| && KindOf(parts[j]) == Some(k))
      && (k in s ==> exists j :: (0 <= j < |parts| && KindOf(parts[j]) == Some(k)
            && s[k] == SectionFor(k, Content(parts[j]))
            && forall j' :: j < j' < |parts| ==> KindOf(parts[j']) != Some(k)))
  {
    var parts := Parts(output);
    var e := Entries(parts);
    var r := LastOfKind(e, k, |parts|);
    LatestSpec(e, |parts|, k);
    if r.Some? {
      var j := r.value;
      EntryKind(parts, j, k);
      forall j' | j < j' < |parts| ensures KindOf(parts[j']) != Some(k) {
        EntryKind(parts, j', k);
      }
      assert 0 <= j < |parts| && KindOf(parts[j]) == Some(k);
    } else {
      forall j | 0 <= j < |parts| ensures KindOf(parts[j]) != Some(k) {
        EntryKind(parts, j, k);
      }
    }
  }

  /** The entry of a part assigns key `k` exactly when the part has kind `k`. */
  lemma EntryKind(parts: seq<String>, j: nat, k: Kind)
    requires j < |parts|
    ensures var e := Entries(parts)[j];
      ((e.Some? && e.value.0 == k) <==> KindOf(parts[j]) == Some(k))
      && (e.Some? ==> e.value.1 == SectionFor(e.value.0, Content(parts[j])))
  {
  }

  /** Intro text never changes the sections. */
  lemma IntroNeverContributes(intro: String, rest: String)
    requires forall i :: 0 <= i < |intro| ==> HeadingAt((intro + rest)[i..]).None?
    ensures Sections(intro + rest) == Sections(rest)
  {
    IntroIgnored(intro, rest);
  }

  // ---------------------------------------------------------------------
  // What is shown
  // ---------------------------------------------------------------------

  /** The panels of the rendered view, `None` for a hidden one; `training`
      is the TRAINING CONTENT container around the last two. */
  datatype View = View(
    summary: Option<Display>, bpmn: Option<Display>, processDoc: Option<Display>,
    training: bool, script: Option<Display>, media: Option<Display>)

  /** `selectedFormats?.[key]`: false when the prop is missing. */
  predicate FlagSet(selected: Option<OutputFormats.Formats>, key: OutputFormats.FormatKey)
  {
    selected.Some? && OutputFormats.Selected(selected.value, key)
  }

  function DisplayOf(sections: map<Kind, Section>, k: Kind): Option<Display>
  {
    if k in sections then Some(sections[k].display) else None
  }

  /** The rendered view of `analysisOutput`; `None` is `return null`. */
  function Render(output: String, selected: Option<OutputFormats.Formats>): (r: Option<View>)
    ensures r.None? <==> output == []
  {
    if output == [] then None
    else
      var s := Sections(output);
      var training := FlagSet(selected, OutputFormats.TrainingScript);
      Some(View(
        DisplayOf(s, Summary),
        if FlagSet(selected, OutputFormats.Bpmn) then DisplayOf(s, Bpmn) else None,
        if FlagSet(selected, OutputFormats.ProcessDoc) then DisplayOf(s, ProcessDoc) else None,
        training && (SynthesiaScript in s || SynthesiaMedia in s),
        if training then DisplayOf(s, SynthesiaScript) else None,
        if training then DisplayOf(s, SynthesiaMedia) else None))
  }

  /** The summary panel does not depend on the selected formats; every other
      panel is shown exactly when its format is selected and its section
      exists, and every shown panel carries its section's display. */
  lemma RenderVisibility(output: String, selected: Option<OutputFormats.Formats>, other: Option<OutputFormats.Formats>)
    requires output != []
    ensures var v := Render(output, selected).value; var s := Sections(output);
      v.summary == Render(output, other).value.summary
      && (v.summary.Some? <==> Summary in s)
      && (v.bpmn.Some? <==> FlagSet(selected, OutputFormats.Bpmn) && Bpmn in s)
      && (v.processDoc.Some? <==> FlagSet(selected, OutputFormats.ProcessDoc) && ProcessDoc in s)
      && (v.script.Some? <==> FlagSet(selected, OutputFormats.TrainingScript) && SynthesiaScript in s)
      && (v.media.Some? <==> FlagSet(selected, OutputFormats.TrainingScript) && SynthesiaMedia in s)
      && (v.training <==> v.script.Some? || v.media.Some?)
      && (v.summary.Some? ==> v.summary.value == s[Summary].display)
      && (v.bpmn.Some? ==> v.bpmn.value == s[Bpmn].display)
      && (v.processDoc.Some? ==> v.processDoc.value == s[ProcessDoc].display)
      && (v.script.Some? ==> v.script.value == s[SynthesiaScript].display)
      && (v.media.Some? ==> v.media.value == s[SynthesiaMedia].display)
  {
  }

  /** With no format selected, or without the prop, only the summary can show. */
  lemma NothingSelectedOnlySummary(output: String)
    requires output != []
    ensures var v := Render(output, Some(OutputFormats.NoFormats)).value;
      v == Render(output, None).value
      && v.bpmn.None? && v.processDoc.None? && !v.training && v.script.None? && v.media.None?
  {
  }

  // ---------------------------------------------------------------------
  // Copy buttons
  // ---------------------------------------------------------------------

  /** The `copiedSections` set: section ids whose button shows "Copied!". */
  class CopyTracker {
    var copied: set<String>

    constructor()
      ensures copied == {}
    {
      copied := {};
    }

    /** `copiedSections.has(id)`. */
    predicate ShowsCopied(id: String)
      reads this
    {
      id in copied
    }

    /** `handleCopy(content, id)`: the id is added once the clipboard write
        succeeds; a failed write is only logged. */
    method Copy(id: String, clipboardWritten: bool)
      modifies this
      ensures copied == if clipboardWritten then old(copied) + {id} else old(copied)
    {
      if clipboardWritten {
        copied := copied + {id};
      }
    }

    /** The 2-second timer after a copy: the id is removed again. */
    method CopyExpired(id: String)
      modifies this
      ensures copied == old(copied) - {id}
      ensures !ShowsCopied(id)
    {
      copied := copied - {id};
    }
  }
}
