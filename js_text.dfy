/** The JavaScript string operations the UI code relies on: `trim`, `includes`,
    `indexOf`, `split`/`join` on one character, `toLowerCase` on ASCII letters
    and the decimal printing of integers (`String(n)`, template literals). */
module JsText {
  import opened Wrappers

  type String = seq<char>

  /** The WhiteSpace and LineTerminator code points of ECMAScript: the set that
      `trim()` strips and that the regular-expression class `\s` matches. */
  predicate IsSpace(c: char)
  {
    c == '\t' || c == '\n' || c == '\U{B}' || c == '\U{C}' || c == '\r' || c == ' '
    || c == '\U{A0}' || c == '\U{1680}' || ('\U{2000}' <= c <= '\U{200A}')
    || c == '\U{2028}' || c == '\U{2029}' || c == '\U{202F}' || c == '\U{205F}'
    || c == '\U{3000}' || c == '\U{FEFF}'
  }

  /** An ASCII decimal digit, the class `\d`. */
  predicate IsDigit(c: char)
  {
    '0' <= c <= '9'
  }

  predicate IsAsciiUpper(c: char)
  {
    'A' <= c <= 'Z'
  }

  predicate AllSpace(s: String)
  {
    forall i :: 0 <= i < |s| ==> IsSpace(s[i])
  }

  /** `s.trimStart()`: the suffix left after the leading white space. */
  function TrimStart(s: String): (r: String)
    ensures |r| <= |s| && r == s[|s| - |r|..]
    ensures r == [] || !IsSpace(r[0])
  {
    if s != [] && IsSpace(s[0]) then TrimStart(s[1..]) else s
  }

  /** What `trimStart` removes is white space. */
  lemma {:induction false} TrimStartRemovesSpace(s: String)
    ensures AllSpace(s[..|s| - |TrimStart(s)|])
  {
    if s != [] && IsSpace(s[0]) {
      TrimStartRemovesSpace(s[1..]);
      var k := |s| - |TrimStart(s)|;
      assert s[..k] == [s[0]] + s[1..][..k - 1];
    }
  }

  /** `s.trimEnd()`: the prefix left before the trailing white space. */
  function TrimEnd(s: String): (r: String)
    ensures |r| <= |s| && r == s[..|r|]
    ensures r == [] || !IsSpace(r[|r| - 1])
  {
    if s != [] && IsSpace(s[|s| - 1]) then TrimEnd(s[..|s| - 1]) else s
  }

  /** What `trimEnd` removes is white space. */
  lemma {:induction false} TrimEndRemovesSpace(s: String)
    ensures AllSpace(s[|TrimEnd(s)|..])
  {
    if s != [] && IsSpace(s[|s| - 1]) {
      TrimEndRemovesSpace(s[..|s| - 1]);
      var k := |TrimEnd(s)|;
      assert s[k..] == s[..|s| - 1][k..] + [s[|s| - 1]];
    }
  }

  /** `s.trim()`: neither end of the result is white space. */
  function Trim(s: String): (r: String)
    ensures |r| <= |s|
    ensures r == [] || (!IsSpace(r[0]) && !IsSpace(r[|r| - 1]))
  {
    var t := TrimStart(s);
    var r := TrimEnd(t);
    assert r != [] ==> r[0] == t[0];
    r
  }

  /** `!s.trim()`: the string is empty once trimmed. */
  predicate IsBlank(s: String)
  {
    Trim(s) == []
  }

  /** Trimming does not shorten a string that starts with non-space. */
  lemma {:induction false} TrimEndKeepsHead(t: String)
    requires t != [] && !IsSpace(t[0])
    ensures TrimEnd(t) != []
  {
    if |t| > 1 && IsSpace(t[|t| - 1]) {
      TrimEndKeepsHead(t[..|t| - 1]);
    }
  }

  /** A string is blank exactly when every character is white space. */
  lemma BlankIffAllSpace(s: String)
    ensures IsBlank(s) <==> AllSpace(s)
  {
    var t := TrimStart(s);
    TrimStartRemovesSpace(s);
    assert s[|s| - |t|..] == t;
    if t == [] {
      assert s[..|s|] == s;
    } else {
      TrimEndKeepsHead(t);
      assert s[|s| - |t|] == t[0];
    }
  }

  /** A string without white space at either end is its own trim. */
  lemma TrimKeepsUnpadded(s: String)
    requires s == [] || (!IsSpace(s[0]) && !IsSpace(s[|s| - 1]))
    ensures Trim(s) == s
  {
  }

  /** Trimming twice is trimming once. */
  lemma TrimIdempotent(s: String)
    ensures Trim(Trim(s)) == Trim(s)
  {
    TrimKeepsUnpadded(Trim(s));
  }

  predicate StartsWith(s: String, p: String)
  {
    |p| <= |s| && s[..|p|] == p
  }

  /** `s.includes(p)`. */
  predicate Contains(s: String, p: String)
  {
    StartsWith(s, p) || (s != [] && Contains(s[1..], p))
  }

  /** `p` occurs in `s` at position `i`. */
  predicate OccursAt(s: String, p: String, i: nat)
  {
    i + |p| <= |s| && s[i..i + |p|] == p
  }

  /** `includes` holds exactly when `p` occurs at some position of `s`. */
  lemma {:induction false} ContainsIff(s: String, p: String)
    ensures Contains(s, p) <==> exists i: nat :: OccursAt(s, p, i)
  {
    if StartsWith(s, p) {
      assert OccursAt(s, p, 0);
    } else if s == [] {
    } else {
      ContainsIff(s[1..], p);
      if Contains(s[1..], p) {
        var i: nat :| OccursAt(s[1..], p, i);
        assert s[1..][i..i + |p|] == s[i + 1..i + 1 + |p|];
        assert OccursAt(s, p, i + 1);
      } else {
        forall i: nat | OccursAt(s, p, i) ensures false {
          assert i > 0 by { assert s[0..|p|] == s[..|p|]; }
          var t := s[1..];
          assert i - 1 + |p| <= |t|;
          assert t[i - 1..i - 1 + |p|] == s[i..i + |p|];
          assert OccursAt(t, p, i - 1);
        }
      }
    }
  }

  /** `s.indexOf(p, from)`, with `None` for -1: the first position at or after
      `from` where `p` occurs. */
  function IndexOf(s: String, p: String, from: nat): (r: Option<nat>)
    decreases |s| - from
    ensures r.Some? ==> from <= r.value && r.value + |p| <= |s| && s[r.value..r.value + |p|] == p
    ensures r.Some? ==> forall j :: from <= j < r.value ==> !StartsWith(s[j..], p)
    ensures r.None? ==> forall j :: from <= j <= |s| ==> !StartsWith(s[j..], p)
  {
    if from > |s| then None
    else if StartsWith(s[from..], p) then Some(from)
    else IndexOf(s, p, from + 1)
  }

  /** `s.split(sep)` for a one-character separator. */
  function Split(s: String, sep: char): (parts: seq<String>)
    ensures |parts| >= 1
    ensures forall k :: 0 <= k < |parts| ==> sep !in parts[k]
    ensures |parts| == 1 <==> sep !in s
  {
    if s == [] then [[]]
    else
      var rest := Split(s[1..], sep);
      if s[0] == sep then [[]] + rest else [[s[0]] + rest[0]] + rest[1..]
  }

  /** `parts.join(sep)`. */
  function Join(parts: seq<String>, sep: char): String
  {
    if parts == [] then []
    else if |parts| == 1 then parts[0]
    else parts[0] + [sep] + Join(parts[1..], sep)
  }

  /** Splitting and joining on the same character gives the string back. */
  lemma {:induction false} JoinSplit(s: String, sep: char)
    ensures Join(Split(s, sep), sep) == s
  {
    if s != [] {
      var rest := Split(s[1..], sep);
      JoinSplit(s[1..], sep);
      if s[0] != sep {
        if |rest| == 1 {
        } else {
          assert ([[s[0]] + rest[0]] + rest[1..])[1..] == rest[1..];
          assert Join(rest, sep) == rest[0] + [sep] + Join(rest[1..], sep);
        }
      }
    }
  }

  /** Joining pieces free of the separator and splitting again gives the pieces back. */
  lemma {:induction false} SplitJoin(parts: seq<String>, sep: char)
    requires |parts| >= 1
    requires forall k :: 0 <= k < |parts| ==> sep !in parts[k]
    ensures Split(Join(parts, sep), sep) == parts
  {
    if |parts| == 1 {
      SplitNoSeparator(parts[0], sep);
    } else {
      SplitJoin(parts[1..], sep);
      SplitAround(parts[0], Join(parts[1..], sep), sep);
    }
  }

  lemma {:induction false} SplitNoSeparator(s: String, sep: char)
    requires sep !in s
    ensures Split(s, sep) == [s]
  {
    if s != [] {
      SplitNoSeparator(s[1..], sep);
      assert [s[0]] + s[1..] == s;
    }
  }

  /** Splitting `a + [sep] + b` with `a` free of the separator. */
  lemma {:induction false} SplitAround(a: String, b: String, sep: char)
    requires sep !in a
    ensures Split(a + [sep] + b, sep) == [a] + Split(b, sep)
  {
    if a != [] {
      assert (a + [sep] + b)[1..] == a[1..] + [sep] + b;
      assert (a + [sep] + b)[0] == a[0];
      SplitAround(a[1..], b, sep);
      assert [a[0]] + a[1..] == a;
    } else {
      assert (a + [sep] + b)[1..] == b;
    }
  }

  /** The text before the first `sep`, or all of `s` when there is none. */
  function BeforeFirst(s: String, sep: char): String
  {
    if s == [] || s[0] == sep then [] else [s[0]] + BeforeFirst(s[1..], sep)
  }

  /** The text after the first `sep`, or the empty string when there is none. */
  function AfterFirst(s: String, sep: char): String
  {
    if s == [] then [] else if s[0] == sep then s[1..] else AfterFirst(s[1..], sep)
  }

  /** `lines[0]` and `lines.slice(1).join(sep)` of `lines = s.split(sep)`
      are the text before and after the first separator. */
  lemma SplitHeadTail(s: String, sep: char)
    ensures Split(s, sep)[0] == BeforeFirst(s, sep)
    ensures Join(Split(s, sep)[1..], sep) == AfterFirst(s, sep)
    ensures s == if sep in s then BeforeFirst(s, sep) + [sep] + AfterFirst(s, sep) else BeforeFirst(s, sep)
  {
    SplitHead(s, sep);
    SplitTail(s, sep);
    AroundFirst(s, sep);
  }

  lemma {:induction false} SplitHead(s: String, sep: char)
    ensures Split(s, sep)[0] == BeforeFirst(s, sep)
  {
    if s != [] && s[0] != sep {
      SplitHead(s[1..], sep);
    }
  }

  lemma {:induction false} SplitTail(s: String, sep: char)
    ensures Join(Split(s, sep)[1..], sep) == AfterFirst(s, sep)
  {
    if s != [] {
      var rest := Split(s[1..], sep);
      if s[0] == sep {
        JoinSplit(s[1..], sep);
        assert Split(s, sep)[1..] == rest;
      } else {
        SplitTail(s[1..], sep);
        assert Split(s, sep)[1..] == rest[1..];
      }
    }
  }

  lemma {:induction false} AroundFirst(s: String, sep: char)
    ensures s == if sep in s then BeforeFirst(s, sep) + [sep] + AfterFirst(s, sep) else BeforeFirst(s, sep)
  {
    if s != [] && s[0] != sep {
      var t := s[1..];
      AroundFirst(t, sep);
      assert s == [s[0]] + t;
      assert sep in s <==> sep in t;
    }
  }

  /** `s.split(sep).pop()`: the text after the last separator, or all of `s`. */
  function LastSegment(s: String, sep: char): String
  {
    var parts := Split(s, sep);
    parts[|parts| - 1]
  }

  /** The last segment is a separator-free suffix of `s`; it is all of `s`
      exactly when `s` has no separator, and otherwise a separator precedes it. */
  lemma {:induction false} LastSegmentSpec(s: String, sep: char)
    ensures var r := LastSegment(s, sep);
      && sep !in r && |r| <= |s| && r == s[|s| - |r|..]
      && (sep !in s <==> r == s)
      && (sep in s ==> |r| < |s| && s[|s| - |r| - 1] == sep)
  {
    if s != [] {
      var t := s[1..];
      LastSegmentSpec(t, sep);
      LastSegmentStep(s, sep);
      var r := LastSegment(s, sep);
      assert s == [s[0]] + t;
      if s[0] == sep || sep in t {
        assert t[|t| - |r|..] == s[|s| - |r|..];
        if sep in t {
          assert t[|t| - |r| - 1] == s[|s| - |r| - 1];
        }
      }
    }
  }

  /** One character in front: the last segment moves on past a separator,
      and is the whole string when there is none. */
  lemma LastSegmentStep(s: String, sep: char)
    requires s != []
    ensures (s[0] == sep || sep in s[1..]) ==> LastSegment(s, sep) == LastSegment(s[1..], sep)
    ensures !(s[0] == sep || sep in s[1..]) ==> LastSegment(s, sep) == s
  {
    var rest := Split(s[1..], sep);
    if s[0] != sep && sep !in s[1..] {
      SplitNoSeparator(s[1..], sep);
      assert Split(s, sep) == [[s[0]] + s[1..]];
      assert [s[0]] + s[1..] == s;
    }
  }

  /** The last segment of `a + [sep] + b` is `b` when `b` has no separator. */
  lemma {:induction false} LastSegmentOfAppend(a: String, b: String, sep: char)
    requires sep !in b
    ensures LastSegment(a + [sep] + b, sep) == b
  {
    var s := a + [sep] + b;
    if a == [] {
      assert s[1..] == b;
      SplitNoSeparator(b, sep);
    } else {
      assert s[1..] == a[1..] + [sep] + b;
      LastSegmentOfAppend(a[1..], b, sep);
      assert sep in s[1..] by { assert s[1..][|a| - 1] == sep; }
    }
  }

  function LowerChar(c: char): char
  {
    if 'A' <= c <= 'Z' then (c as int + 32) as char else c
  }

  /** `s.toLowerCase()` restricted to ASCII letters. */
  function ToLower(s: String): (r: String)
    ensures |r| == |s|
    ensures forall i :: 0 <= i < |s| ==> r[i] == LowerChar(s[i])
  {
    seq(|s|, i requires 0 <= i < |s| => LowerChar(s[i]))
  }

  function DigitChar(d: nat): char
    requires d < 10
  {
    ('0' as int + d) as char
  }

  /** `String(n)` for a non-negative integer: its shortest decimal numeral. */
  function NatToString(n: nat): (r: String)
    ensures |r| >= 1 && (forall i :: 0 <= i < |r| ==> IsDigit(r[i]))
    ensures r[0] == '0' ==> n == 0
  {
    if n < 10 then [DigitChar(n)] else NatToString(n / 10) + [DigitChar(n % 10)]
  }

  /** `String(i)` for an integer. */
  function IntToString(i: int): String
  {
    if i < 0 then "-" + NatToString(-i) else NatToString(i)
  }
}
