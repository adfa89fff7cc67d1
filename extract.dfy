/**
 * Pulling the JSON object out of a language model's reply. Two versions
 * exist: `extract_json` in backend/agent/llm.py strips code fences with two
 * regular-expression substitutions and slices from the first '{' to the
 * last '}', and `extract_json` in agent_basic.py removes the fences
 * literally, strips the text and runs a greedy `\{.*\}` search. Both raise
 * `ValueError` when there is nothing to extract.
 */
module Extraction {
  import opened Common

  datatype Extraction = Found(json: string) | ValueError(message: string)

  const NoJsonMessage := "No JSON object found in output"

  /** Python's notion of whitespace, used both by `\s` and by `str.strip`. */
  predicate IsSpace(c: char) {
    || ('\t' <= c <= '\r') || ('\U{1C}' <= c <= '\U{1F}') || c == ' ' || c == '\U{85}' || c == '\U{A0}'
    || c == '\U{1680}' || ('\U{2000}' <= c <= '\U{200A}') || c == '\U{2028}' || c == '\U{2029}'
    || c == '\U{202F}' || c == '\U{205F}' || c == '\U{3000}'
  }

  predicate IsBrace(c: char) {
    c == '{' || c == '}'
  }

  /** The braces of a text, in order. */
  function Braces(s: string): string {
    Filter(s, IsBrace)
  }

  /** A '{' somewhere before a '}'. */
  predicate HasPair(s: string) {
    exists i, j :: 0 <= i < j < |s| && s[i] == '{' && s[j] == '}'
  }

  // ----- Text operations -----

  /** The text without its leading whitespace. */
  function DropSpaces(s: string): (r: string)
    ensures |r| <= |s| && r == s[|s| - |r|..]
    ensures forall k :: 0 <= k < |s| - |r| ==> IsSpace(s[k])
    ensures |r| > 0 ==> !IsSpace(r[0])
    decreases |s|
  {
    if |s| > 0 && IsSpace(s[0]) then DropSpaces(s[1..]) else s
  }

  /** The text without its trailing whitespace. */
  function DropTrailingSpaces(s: string): (r: string)
    ensures |r| <= |s| && r == s[..|r|]
    ensures forall k :: |r| <= k < |s| ==> IsSpace(s[k])
    ensures |r| > 0 ==> !IsSpace(r[|r| - 1])
    decreases |s|
  {
    if |s| > 0 && IsSpace(s[|s| - 1]) then DropTrailingSpaces(s[..|s| - 1]) else s
  }

  /** `str.strip()`. */
  function Strip(s: string): string {
    DropTrailingSpaces(DropSpaces(s))
  }

  /**
   * Removing every occurrence of `tag`, scanning left to right without
   * overlaps: `str.replace(tag, "")` when `spaces` is false, and
   * `re.sub(tag + r"\s*", "", s)` when it is true.
   */
  function RemoveEvery(s: string, tag: string, spaces: bool): (r: string)
    requires |tag| > 0
    ensures |r| <= |s|
    decreases |s|
  {
    if |s| == 0 then []
    else if tag <= s then
      var rest := s[|tag|..];
      RemoveEvery(if spaces then DropSpaces(rest) else rest, tag, spaces)
    else [s[0]] + RemoveEvery(s[1..], tag, spaces)
  }

  /** The text `extract_json` in backend/agent/llm.py searches. */
  function LlmClean(text: string): string {
    RemoveEvery(RemoveEvery(text, "```json", true), "```", true)
  }

  /** The text `extract_json` in agent_basic.py searches. */
  function BasicClean(text: string): string {
    Strip(RemoveEvery(RemoveEvery(text, "```json", false), "```", false))
  }

  /** `str.find`: the first position of `c`. */
  function FirstIndex(s: string, c: char): (r: Option<nat>)
    ensures r.None? <==> c !in s
    ensures r.Some? ==> r.value < |s| && s[r.value] == c && forall k :: 0 <= k < r.value ==> s[k] != c
    decreases |s|
  {
    if |s| == 0 then None
    else if s[0] == c then Some(0)
    else
      var rest := FirstIndex(s[1..], c);
      if rest.None? then None else Some(rest.value + 1)
  }

  /** `str.rfind`: the last position of `c`. */
  function LastIndex(s: string, c: char): (r: Option<nat>)
    ensures r.None? <==> c !in s
    ensures r.Some? ==> r.value < |s| && s[r.value] == c && forall k :: r.value < k < |s| ==> s[k] != c
    decreases |s|
  {
    if |s| == 0 then None
    else if s[|s| - 1] == c then Some(|s| - 1)
    else
      var init := s[..|s| - 1];
      assert forall k :: 0 <= k < |init| ==> init[k] == s[k];
      LastIndex(init, c)
  }

  // ----- backend/agent/llm.py -----

  /** The slice from the first '{' through the last '}'. */
  function SliceBraces(c: string): Extraction {
    var start := FirstIndex(c, '{');
    var end := LastIndex(c, '}');
    if start.None? || end.None? || end.value < start.value then ValueError(NoJsonMessage)
    else Found(c[start.value..end.value + 1])
  }

  /** `extract_json` of backend/agent/llm.py: clean the fences away, then slice. */
  function ExtractJson(text: string): (r: Extraction)
    ensures r.ValueError? ==> r.message == NoJsonMessage
    ensures r.Found? ==> |r.json| <= |text|
  {
    SliceBraces(LlmClean(text))
  }

  // ----- agent_basic.py -----

  /**
   * The greedy `.*` after a '{' at `i`: the engine takes the whole rest of
   * the text and gives characters back from the end until a '}' follows.
   */
  function Backtrack(s: string, i: nat, j: int): (r: Option<nat>)
    requires i < |s| && j < |s|
    ensures r.None? <==> forall k :: i < k <= j ==> s[k] != '}'
    ensures r.Some? ==> i < r.value <= j && s[r.value] == '}' && forall k :: r.value < k <= j ==> s[k] != '}'
    decreases j
  {
    if j <= i then None
    else if s[j] == '}' then Some(j)
    else Backtrack(s, i, j - 1)
  }

  /** `re.search`: the leftmost start position at which the pattern matches. */
  function SearchFrom(s: string, i: nat): (r: Option<(nat, nat)>)
    ensures r.None? <==> forall a, b :: i <= a < b < |s| ==> !(s[a] == '{' && s[b] == '}')
    ensures r.Some? ==>
      && i <= r.value.0 < r.value.1 < |s| && s[r.value.0] == '{' && s[r.value.1] == '}'
      && (forall k :: i <= k < r.value.0 ==> s[k] != '{')
      && (forall k :: r.value.1 < k < |s| ==> s[k] != '}')
    decreases |s| - i
  {
    if i >= |s| then None
    else if s[i] == '{' then
      var end := Backtrack(s, i, |s| - 1);
      if end.Some? then Some((i, end.value)) else SearchFrom(s, i + 1)
    else SearchFrom(s, i + 1)
  }

  /** The text the search matched, or the error when it matched nothing. */
  function SearchExtract(c: string): Extraction {
    var m := SearchFrom(c, 0);
    if m.None? then ValueError(NoJsonMessage) else Found(c[m.value.0..m.value.1 + 1])
  }

  /** `extract_json` of agent_basic.py: replace the fences, strip, then search. */
  function ExtractJsonBasic(text: string): (r: Extraction)
    ensures r.ValueError? ==> r.message == NoJsonMessage
    ensures r.Found? ==> |r.json| <= |text|
  {
    var c := BasicClean(text);
    assert |c| <= |text| by {
      var removed := RemoveEvery(RemoveEvery(text, "```json", false), "```", false);
      assert |DropSpaces(removed)| <= |removed|;
    }
    SearchExtract(c)
  }

  // ----- Properties -----

  /**
   * The find/rfind slice fails exactly when no '{' comes before a '}', and
   * otherwise runs from the first '{' through the last '}'.
   */
  lemma SliceBracesSpec(c: string)
    ensures SliceBraces(c).Found? <==> HasPair(c)
    ensures SliceBraces(c).ValueError? ==> SliceBraces(c).message == NoJsonMessage
    ensures SliceBraces(c).Found? ==>
      exists i, j :: 0 <= i < j < |c| && SliceBraces(c).json == c[i..j + 1]
        && c[i] == '{' && c[j] == '}'
        && (forall k :: 0 <= k < i ==> c[k] != '{') && (forall k :: j < k < |c| ==> c[k] != '}')
  {
    var start := FirstIndex(c, '{');
    var end := LastIndex(c, '}');
    if HasPair(c) {
      var i, j :| 0 <= i < j < |c| && c[i] == '{' && c[j] == '}';
      assert c[i] in c && c[j] in c;
      assert start.value <= i && j <= end.value;
    }
    if SliceBraces(c).Found? {
      assert start.value != end.value;
    }
  }

  /** A found slice begins with '{' and ends with '}'. */
  lemma SliceIsBraced(c: string)
    ensures SliceBraces(c).Found? ==>
      var j := SliceBraces(c).json; |j| >= 2 && j[0] == '{' && j[|j| - 1] == '}'
  {
    SliceBracesSpec(c);
  }

  /** A found object begins with '{' and ends with '}'. */
  lemma FoundIsBraced(text: string)
    ensures ExtractJson(text).Found? ==>
      var j := ExtractJson(text).json; |j| >= 2 && j[0] == '{' && j[|j| - 1] == '}'
  {
    var c := LlmClean(text);
    assert ExtractJson(text) == SliceBraces(c);
    SliceIsBraced(c);
  }

  /** The same for the basic extractor. */
  lemma BasicFoundIsBraced(text: string)
    ensures ExtractJsonBasic(text).Found? ==>
      var j := ExtractJsonBasic(text).json; |j| >= 2 && j[0] == '{' && j[|j| - 1] == '}'
  {
    BasicIsSlice(text);
    SliceIsBraced(BasicClean(text));
  }

  /** The regex search finds what find/rfind find. */
  lemma SearchAgreesWithSlice(c: string)
    ensures SearchExtract(c) == SliceBraces(c)
  {
    SliceBracesSpec(c);
    var m := SearchFrom(c, 0);
    if m.Some? {
      var start := FirstIndex(c, '{');
      var end := LastIndex(c, '}');
      assert c[m.value.0] in c && c[m.value.1] in c;
      assert start.value == m.value.0 && end.value == m.value.1;
    }
  }

  /** The basic extractor is the find/rfind slice of its own cleaned text. */
  lemma BasicIsSlice(text: string)
    ensures ExtractJsonBasic(text) == SliceBraces(BasicClean(text))
  {
    var c := BasicClean(text);
    assert ExtractJsonBasic(text) == SearchExtract(c);
    SearchAgreesWithSlice(c);
  }

  /** The found object is a contiguous piece of the cleaned text. */
  lemma FoundIsSubstring(text: string)
    ensures ExtractJson(text).Found? ==>
      exists i, j :: 0 <= i <= j <= |LlmClean(text)| && ExtractJson(text).json == LlmClean(text)[i..j]
    ensures ExtractJsonBasic(text).Found? ==>
      exists i, j :: 0 <= i <= j <= |BasicClean(text)| && ExtractJsonBasic(text).json == BasicClean(text)[i..j]
  {
    SliceBracesSpec(LlmClean(text));
    BasicIsSlice(text);
    SliceBracesSpec(BasicClean(text));
  }

  // ----- Cleaning keeps the braces -----

  /** Whether a '{' comes before a '}' depends only on the braces, in order. */
  lemma {:induction false} PairInBraces(s: string)
    ensures HasPair(Braces(s)) <==> HasPair(s)
    decreases |s|
  {
    if s != [] {
      PairInBraces(s[1..]);
      PairCons(s);
      FilterMembership(s[1..], IsBrace, '}');
      if IsBrace(s[0]) {
        assert Braces(s) == [s[0]] + Braces(s[1..]);
        PairCons(Braces(s));
        assert Braces(s)[1..] == Braces(s[1..]);
      } else {
        assert Braces(s) == Braces(s[1..]);
      }
    }
  }

  /** A pair either starts at the head or lies in the tail. */
  lemma PairCons(s: string)
    requires s != []
    ensures HasPair(s) <==> (s[0] == '{' && '}' in s[1..]) || HasPair(s[1..])
  {
    var t := s[1..];
    if HasPair(s) {
      var i, j :| 0 <= i < j < |s| && s[i] == '{' && s[j] == '}';
      if i == 0 {
        assert t[j - 1] == '}';
      } else {
        assert t[i - 1] == '{' && t[j - 1] == '}';
      }
    }
    if s[0] == '{' && '}' in t {
      var j :| 0 <= j < |t| && t[j] == '}';
      assert s[j + 1] == '}';
    }
    if HasPair(t) {
      var i, j :| 0 <= i < j < |t| && t[i] == '{' && t[j] == '}';
      assert s[i + 1] == '{' && s[j + 1] == '}';
    }
  }

  /** A removed occurrence, with the whitespace after it, holds no brace. */
  lemma RemovedPartHasNoBraces(s: string, tag: string, spaces: bool)
    requires |tag| > 0 && tag <= s && forall k :: 0 <= k < |tag| ==> !IsBrace(tag[k])
    ensures var rest := s[|tag|..];
      Braces(s) == Braces(if spaces then DropSpaces(rest) else rest)
  {
    var rest := s[|tag|..];
    assert s == tag + rest;
    FilterConcat(tag, rest, IsBrace);
    FilterNonePass(tag, IsBrace);
    if spaces {
      DropSpacesKeepsBraces(rest);
    }
  }

  /** Removing a tag that holds no brace, with or without the whitespace after it, keeps every brace. */
  lemma {:induction false} RemovalKeepsBraces(s: string, tag: string, spaces: bool)
    requires |tag| > 0 && forall k :: 0 <= k < |tag| ==> !IsBrace(tag[k])
    ensures Braces(RemoveEvery(s, tag, spaces)) == Braces(s)
    decreases |s|
  {
    if |s| == 0 {
    } else if tag <= s {
      RemovedPartHasNoBraces(s, tag, spaces);
      var rest := s[|tag|..];
      RemovalKeepsBraces(if spaces then DropSpaces(rest) else rest, tag, spaces);
    } else {
      RemovalKeepsBraces(s[1..], tag, spaces);
      var r := [s[0]] + RemoveEvery(s[1..], tag, spaces);
      assert r[0] == s[0] && r[1..] == RemoveEvery(s[1..], tag, spaces);
    }
  }

  lemma {:induction false} DropSpacesKeepsBraces(s: string)
    ensures Braces(DropSpaces(s)) == Braces(s)
    decreases |s|
  {
    if |s| > 0 && IsSpace(s[0]) {
      DropSpacesKeepsBraces(s[1..]);
    }
  }

  lemma {:induction false} DropTrailingSpacesKeepsBraces(s: string)
    ensures Braces(DropTrailingSpaces(s)) == Braces(s)
    decreases |s|
  {
    if |s| > 0 && IsSpace(s[|s| - 1]) {
      var init := s[..|s| - 1];
      DropTrailingSpacesKeepsBraces(init);
      assert s == init + [s[|s| - 1]];
      FilterConcat(init, [s[|s| - 1]], IsBrace);
      assert Braces([s[|s| - 1]]) == [];
    }
  }

  /** Stripping keeps every brace. */
  lemma StripKeepsBraces(s: string)
    ensures Braces(Strip(s)) == Braces(s)
  {
    DropSpacesKeepsBraces(s);
    DropTrailingSpacesKeepsBraces(DropSpaces(s));
  }

  /** Both cleanings keep the reply's braces, in order. */
  lemma CleaningKeepsBraces(text: string)
    ensures Braces(LlmClean(text)) == Braces(text)
    ensures Braces(BasicClean(text)) == Braces(text)
  {
    RemovalKeepsBraces(text, "```json", true);
    RemovalKeepsBraces(RemoveEvery(text, "```json", true), "```", true);
    RemovalKeepsBraces(text, "```json", false);
    var replaced := RemoveEvery(RemoveEvery(text, "```json", false), "```", false);
    RemovalKeepsBraces(RemoveEvery(text, "```json", false), "```", false);
    StripKeepsBraces(replaced);
  }

  /**
   * The two extractors raise on exactly the same replies: those in which no
   * '{' comes before a '}'.
   */
  lemma ExtractorsFailAlike(text: string)
    ensures ExtractJson(text).ValueError? <==> !HasPair(text)
    ensures ExtractJsonBasic(text).ValueError? <==> !HasPair(text)
    ensures ExtractJson(text).ValueError? ==> ExtractJson(text).message == NoJsonMessage
    ensures ExtractJsonBasic(text).ValueError? ==> ExtractJsonBasic(text).message == NoJsonMessage
  {
    CleaningKeepsBraces(text);
    PairInBraces(text);
    PairInBraces(LlmClean(text));
    PairInBraces(BasicClean(text));
    SliceBracesSpec(LlmClean(text));
    BasicIsSlice(text);
    SliceBracesSpec(BasicClean(text));
  }

  /** Neither cleaning changes a text without backticks that starts and ends outside whitespace. */
  lemma CleanKeepsBare(s: string)
    requires |s| > 0 && !IsSpace(s[0]) && !IsSpace(s[|s| - 1])
    requires forall k :: 0 <= k < |s| ==> s[k] != '`'
    ensures LlmClean(s) == s
    ensures BasicClean(s) == s
  {
    NoBacktickKept(s, "```json", true);
    NoBacktickKept(s, "```", true);
    NoBacktickKept(s, "```json", false);
    NoBacktickKept(s, "```", false);
    assert DropSpaces(s) == s;
    assert DropTrailingSpaces(s) == s;
  }

  /** A bare object is its own slice. */
  lemma BareSlice(s: string)
    requires |s| >= 2 && s[0] == '{' && s[|s| - 1] == '}'
    ensures SliceBraces(s) == Found(s)
  {
    assert FirstIndex(s, '{') == Some(0);
    assert LastIndex(s, '}') == Some(|s| - 1);
    assert s[0..|s|] == s;
  }

  /** A reply that is a bare object, with no fences and no surrounding whitespace, comes back whole from both. */
  lemma BareObjectUnchanged(s: string)
    requires |s| >= 2 && s[0] == '{' && s[|s| - 1] == '}'
    requires forall k :: 0 <= k < |s| ==> s[k] != '`'
    ensures ExtractJson(s) == Found(s)
    ensures ExtractJsonBasic(s) == Found(s)
  {
    CleanKeepsBare(s);
    BareSlice(s);
    assert ExtractJson(s) == SliceBraces(LlmClean(s));
    BasicIsSlice(s);
  }

  /** Removing a fence from a text without backticks keeps the text. */
  lemma {:induction false} NoBacktickKept(s: string, tag: string, spaces: bool)
    requires |tag| > 0 && tag[0] == '`'
    requires forall k :: 0 <= k < |s| ==> s[k] != '`'
    ensures RemoveEvery(s, tag, spaces) == s
    decreases |s|
  {
    if |s| > 0 {
      assert !(tag <= s);
      NoBacktickKept(s[1..], tag, spaces);
    }
  }
}
