/**
 * JSON recovery from language-model text in the OpenAI client
 * (`OpenAIClient.extract_json`, `_extract_balanced_braces` and
 * `_clean_json_string` in MCP/server/integrations/openai.py).
 *
 * The balanced-delimiter scanner and the cleanup pass change local state
 * step by step and are methods proved against functional specifications;
 * `extract_json` is an early-return chain and is a function.
 */
module OpenAIExtract {
  import opened Json
  import opened Text

  // ---------------------------------------------------------------------------
  // Balanced-delimiter scanner
  // ---------------------------------------------------------------------------

  /** The scanner's three loop variables: `count`, `in_string`, `escape_next`. */
  datatype ScanState = ScanState(count: int, inString: bool, escapeNext: bool)

  const Initial := ScanState(0, false, false)

  /** The effect of one loop iteration that does not return. */
  function Advance(st: ScanState, c: char, openChar: char, closeChar: char): ScanState {
    if st.escapeNext then st.(escapeNext := false)
    else if c == '\\' then st.(escapeNext := true)
    else if c == '"' then st.(inString := !st.inString)
    else if st.inString then st
    else if c == openChar then st.(count := st.count + 1)
    else if c == closeChar then st.(count := st.count - 1)
    else st
  }

  /** Whether the iteration that reads `c` in state `st` returns: an unescaped,
      out-of-string closing character that brings the count back to zero. */
  predicate Returns(st: ScanState, c: char, openChar: char, closeChar: char) {
    && !st.escapeNext && c != '\\' && c != '"' && !st.inString
    && c != openChar && c == closeChar && st.count - 1 == 0
  }

  /** The loop from index `i` on, in state `st`: the end of the returned prefix, if it returns. */
  function ScanFrom(text: string, openChar: char, closeChar: char, i: nat, st: ScanState): (r: Option<nat>)
    requires i <= |text|
    ensures r.Some? ==> i < r.value <= |text| && text[r.value - 1] == closeChar
    decreases |text| - i
  {
    if i == |text| then None
    else if Returns(st, text[i], openChar, closeChar) then Some(i + 1)
    else ScanFrom(text, openChar, closeChar, i + 1, Advance(st, text[i], openChar, closeChar))
  }

  /** What `_extract_balanced_braces(text, open_char, close_char)` returns. */
  function BalancedPrefix(text: string, openChar: char, closeChar: char): (r: Option<string>)
    ensures |text| == 0 || text[0] != openChar ==> r == None
    ensures r.Some? ==> && 0 < |r.value| <= |text| && r.value == text[..|r.value|]
                        && r.value[0] == openChar && r.value[|r.value| - 1] == closeChar
  {
    if |text| == 0 || text[0] != openChar then None
    else match ScanFrom(text, openChar, closeChar, 0, Initial)
      case None => None
      case Some(n) => Some(text[..n])
  }

  /** `_extract_balanced_braces`: the character loop with its three flags. */
  method ExtractBalancedBraces(text: string, openChar: char, closeChar: char) returns (r: Option<string>)
    ensures r == BalancedPrefix(text, openChar, closeChar)
  {
    if |text| == 0 || text[0] != openChar {
      return None;
    }
    var count := 0;
    var inString := false;
    var escapeNext := false;
    for i := 0 to |text|
      invariant ScanFrom(text, openChar, closeChar, i, ScanState(count, inString, escapeNext))
             == ScanFrom(text, openChar, closeChar, 0, Initial)
    {
      var c := text[i];
      if escapeNext {
        escapeNext := false;
        continue;
      }
      if c == '\\' {
        escapeNext := true;
        continue;
      }
      if c == '"' && !escapeNext {
        inString := !inString;
        continue;
      }
      if inString {
        continue;
      }
      if c == openChar {
        count := count + 1;
      } else if c == closeChar {
        count := count - 1;
        if count == 0 {
          return Some(text[..i + 1]);
        }
      }
    }
    return None;
  }

  /** The scanner's state after the first `k` characters, had it not returned. */
  function StateAt(text: string, openChar: char, closeChar: char, k: nat): ScanState
    requires k <= |text|
  {
    if k == 0 then Initial
    else Advance(StateAt(text, openChar, closeChar, k - 1), text[k - 1], openChar, closeChar)
  }

  /** Whether the iteration reading `text[k]` would return. */
  predicate ReturnsAt(text: string, openChar: char, closeChar: char, k: nat)
    requires k < |text|
  {
    Returns(StateAt(text, openChar, closeChar, k), text[k], openChar, closeChar)
  }

  lemma {:induction false} ScanFromFindsFirstReturn(text: string, openChar: char, closeChar: char, i: nat)
    requires i <= |text|
    ensures var r := ScanFrom(text, openChar, closeChar, i, StateAt(text, openChar, closeChar, i));
      && (r.None? <==> forall k | i <= k < |text| :: !ReturnsAt(text, openChar, closeChar, k))
      && (r.Some? ==> && ReturnsAt(text, openChar, closeChar, r.value - 1)
                      && forall k | i <= k < r.value - 1 :: !ReturnsAt(text, openChar, closeChar, k))
    decreases |text| - i
  {
    if i < |text| {
      assert StateAt(text, openChar, closeChar, i + 1)
          == Advance(StateAt(text, openChar, closeChar, i), text[i], openChar, closeChar);
      ScanFromFindsFirstReturn(text, openChar, closeChar, i + 1);
      if !ReturnsAt(text, openChar, closeChar, i) {
        assert (forall k | i <= k < |text| :: !ReturnsAt(text, openChar, closeChar, k))
           <==> (forall k | i + 1 <= k < |text| :: !ReturnsAt(text, openChar, closeChar, k));
      }
    }
  }

  /**
   * The scanner returns nothing exactly when the text is empty, does not start
   * with the opening character, or never reaches a returning closing character;
   * otherwise it returns the prefix that ends at the FIRST such character.
   */
  lemma BalancedPrefixIsFirstReturn(text: string, openChar: char, closeChar: char)
    ensures BalancedPrefix(text, openChar, closeChar).None? <==>
      || |text| == 0 || text[0] != openChar
      || forall k | 0 <= k < |text| :: !ReturnsAt(text, openChar, closeChar, k)
    ensures BalancedPrefix(text, openChar, closeChar).Some? ==>
      var n := |BalancedPrefix(text, openChar, closeChar).value|;
      && ReturnsAt(text, openChar, closeChar, n - 1)
      && forall k | 0 <= k < n - 1 :: !ReturnsAt(text, openChar, closeChar, k)
  {
    ScanFromFindsFirstReturn(text, openChar, closeChar, 0);
  }

  /** Before the scanner returns, the out-of-string depth never drops below one. */
  lemma {:induction false} DepthPositiveUntilReturn(text: string, openChar: char, closeChar: char, k: nat)
    requires openChar != '"' && openChar != '\\'
    requires 1 <= k <= |text| && text[0] == openChar
    requires forall j | 0 <= j < k :: !ReturnsAt(text, openChar, closeChar, j)
    ensures StateAt(text, openChar, closeChar, k).count >= 1
  {
    if k > 1 {
      DepthPositiveUntilReturn(text, openChar, closeChar, k - 1);
      assert !ReturnsAt(text, openChar, closeChar, k - 1);
    } else {
      assert StateAt(text, openChar, closeChar, 0) == Initial;
    }
  }

  /**
   * When the scanner returns a prefix of length `n`, the depth is at least one
   * after each of its first `n - 1` characters and is zero after the last.
   */
  lemma BalancedPrefixDepth(text: string, openChar: char, closeChar: char)
    requires openChar != '"' && openChar != '\\'
    requires BalancedPrefix(text, openChar, closeChar).Some?
    ensures var n := |BalancedPrefix(text, openChar, closeChar).value|;
      && StateAt(text, openChar, closeChar, n).count == 0
      && forall k | 1 <= k < n :: StateAt(text, openChar, closeChar, k).count >= 1
  {
    BalancedPrefixIsFirstReturn(text, openChar, closeChar);
    var n := |BalancedPrefix(text, openChar, closeChar).value|;
    forall k | 1 <= k < n
      ensures StateAt(text, openChar, closeChar, k).count >= 1
    {
      DepthPositiveUntilReturn(text, openChar, closeChar, k);
    }
  }

  /** A backslash consumes the next character: the pair leaves the state as it was and never returns. */
  lemma EscapedCharacterIsInert(text: string, openChar: char, closeChar: char, i: nat)
    requires i + 1 < |text| && text[i] == '\\'
    requires !StateAt(text, openChar, closeChar, i).escapeNext
    ensures StateAt(text, openChar, closeChar, i + 2) == StateAt(text, openChar, closeChar, i)
    ensures !ReturnsAt(text, openChar, closeChar, i) && !ReturnsAt(text, openChar, closeChar, i + 1)
  {
  }

  lemma {:induction false} InsideQuotes(text: string, openChar: char, closeChar: char, i: nat, k: nat)
    requires i < k < |text| && text[i] == '"'
    requires forall m | i < m < k :: text[m] != '"' && text[m] != '\\'
    requires var s := StateAt(text, openChar, closeChar, i); !s.escapeNext && !s.inString
    ensures StateAt(text, openChar, closeChar, k) == StateAt(text, openChar, closeChar, i).(inString := true)
    ensures forall m | i <= m < k :: !ReturnsAt(text, openChar, closeChar, m)
  {
    if k > i + 1 {
      InsideQuotes(text, openChar, closeChar, i, k - 1);
    }
  }

  /**
   * A double-quoted run without quotes or backslashes inside leaves the depth
   * unchanged, whatever delimiters it holds, and the scanner never returns in it.
   */
  lemma QuotedRunIsInert(text: string, openChar: char, closeChar: char, i: nat, j: nat)
    requires i < j < |text| && text[i] == '"' && text[j] == '"'
    requires forall m | i < m < j :: text[m] != '"' && text[m] != '\\'
    requires var s := StateAt(text, openChar, closeChar, i); !s.escapeNext && !s.inString
    ensures StateAt(text, openChar, closeChar, j + 1) == StateAt(text, openChar, closeChar, i)
    ensures forall m | i <= m <= j :: !ReturnsAt(text, openChar, closeChar, m)
  {
    InsideQuotes(text, openChar, closeChar, i, j);
  }

  lemma {:induction false} ScanInsideQuotes(text: string, openChar: char, closeChar: char, k: nat, j: nat, st: ScanState)
    requires k <= j < |text| && text[j] == '"'
    requires forall m | k <= m < j :: text[m] != '"' && text[m] != '\\'
    requires !st.escapeNext && st.inString
    ensures ScanFrom(text, openChar, closeChar, k, st) == ScanFrom(text, openChar, closeChar, j + 1, st.(inString := false))
    decreases j - k
  {
    if k < j {
      ScanInsideQuotes(text, openChar, closeChar, k + 1, j, st);
    }
  }

  /** The loop skips a double-quoted run without quotes or backslashes inside, and leaves its state as it was. */
  lemma QuotedRunSkipped(text: string, openChar: char, closeChar: char, i: nat, j: nat, st: ScanState)
    requires i < j < |text| && text[i] == '"' && text[j] == '"'
    requires forall m | i < m < j :: text[m] != '"' && text[m] != '\\'
    requires !st.escapeNext && !st.inString
    ensures ScanFrom(text, openChar, closeChar, i, st) == ScanFrom(text, openChar, closeChar, j + 1, st)
  {
    ScanInsideQuotes(text, openChar, closeChar, i + 1, j, st.(inString := true));
  }

  /** The loop passes over characters that are neither quotes, backslashes nor delimiters without changing state. */
  lemma {:induction false} PlainRunSkipped(text: string, openChar: char, closeChar: char, i: nat, j: nat, st: ScanState)
    requires i <= j <= |text|
    requires forall m | i <= m < j :: text[m] !in {'"', '\\', openChar, closeChar}
    requires !st.escapeNext
    ensures ScanFrom(text, openChar, closeChar, i, st) == ScanFrom(text, openChar, closeChar, j, st)
    decreases j - i
  {
    if i < j {
      PlainRunSkipped(text, openChar, closeChar, i + 1, j, st);
    }
  }

  lemma BraceInsideStringScanHead(t: string)
    requires t == "{\"a\": \"}\", \"b\": 1}"
    ensures ScanFrom(t, '{', '}', 0, Initial) == ScanFrom(t, '{', '}', 9, ScanState(1, false, false))
  {
    BraceInsideStringOpen(t);
    BraceInsideStringKey(t);
    BraceInsideStringValue(t);
  }

  lemma BraceInsideStringValue(t: string)
    requires t == "{\"a\": \"}\", \"b\": 1}"
    ensures ScanFrom(t, '{', '}', 4, ScanState(1, false, false)) == ScanFrom(t, '{', '}', 9, ScanState(1, false, false))
  {
    var one := ScanState(1, false, false);
    PlainRunSkipped(t, '{', '}', 4, 6, one);
    QuotedRunSkipped(t, '{', '}', 6, 8, one);
  }

  lemma BraceInsideStringOpen(t: string)
    requires t == "{\"a\": \"}\", \"b\": 1}"
    ensures ScanFrom(t, '{', '}', 0, Initial) == ScanFrom(t, '{', '}', 1, ScanState(1, false, false))
  {
  }

  lemma BraceInsideStringKey(t: string)
    requires t == "{\"a\": \"}\", \"b\": 1}"
    ensures ScanFrom(t, '{', '}', 1, ScanState(1, false, false)) == ScanFrom(t, '{', '}', 4, ScanState(1, false, false))
  {
    QuotedRunSkipped(t, '{', '}', 1, 3, ScanState(1, false, false));
  }

  lemma BraceInsideStringScanTail(t: string)
    requires t == "{\"a\": \"}\", \"b\": 1}"
    ensures ScanFrom(t, '{', '}', 9, ScanState(1, false, false)) == Some(18)
  {
    var one := ScanState(1, false, false);
    PlainRunSkipped(t, '{', '}', 9, 11, one);
    QuotedRunSkipped(t, '{', '}', 11, 13, one);
    PlainRunSkipped(t, '{', '}', 14, 17, one);
    assert ScanFrom(t, '{', '}', 17, one) == Some(18);
  }

  /** A closing brace inside a string value does not close the object early. */
  lemma BraceInsideStringExample()
    ensures BalancedPrefix("{\"a\": \"}\", \"b\": 1}", '{', '}') == Some("{\"a\": \"}\", \"b\": 1}")
  {
    var t := "{\"a\": \"}\", \"b\": 1}";
    BraceInsideStringScanHead(t);
    BraceInsideStringScanTail(t);
    assert t[..18] == t;
  }

  // ---------------------------------------------------------------------------
  // Cleanup pass
  // ---------------------------------------------------------------------------

  /** The boilerplate openings removed before the last parse attempt, in the order tried. */
  const Prefixes: seq<string> := ["Here's the JSON:", "Here is the JSON:", "JSON output:", "Output:", "Result:"]

  /** The prefix loop: each listed prefix, in turn, is cut off (and the rest stripped) if it opens the text. */
  function StripPrefixes(s: string, prefixes: seq<string>): (r: string)
    ensures |r| <= |s|
    ensures r != s ==> Strip(r) == r
    decreases |prefixes|
  {
    if prefixes == [] then s
    else StripPrefixes(StripPrefix(s, prefixes[0]), prefixes[1..])
  }

  /** One iteration of the prefix loop: a matching prefix is cut and the rest stripped. */
  function StripPrefix(s: string, prefix: string): (r: string)
    ensures |r| <= |s|
    ensures r != s ==> Strip(r) == r
  {
    if StartsWithIgnoreCase(s, prefix) then
      assert |Lower(prefix)| <= |Lower(s)|;
      StrippedIsFixed(s[|prefix|..]);
      Strip(s[|prefix|..])
    else s
  }

  lemma StrippedIsFixed(s: string)
    ensures Strip(Strip(s)) == Strip(s)
  {
    var r := Strip(s);
    if r != [] {
      NoOuterSpaceStrip(r);
    }
  }

  /** A prefix that opens the text, in any letter case, is cut off and the rest stripped. */
  lemma PrefixCut(q: string, rest: string, p: string)
    requires |q| == |p| && Lower(q) == Lower(p)
    ensures StripPrefix(q + rest, p) == Strip(rest)
  {
    assert Lower(q + rest)[..|p|] == Lower(q);
    assert (q + rest)[|p|..] == rest;
  }

  /** The prefix loop over `a + b` is the loop over `a`, then over `b`. */
  lemma {:induction false} StripPrefixesAppend(s: string, a: seq<string>, b: seq<string>)
    ensures StripPrefixes(s, a + b) == StripPrefixes(StripPrefixes(s, a), b)
    decreases |a|
  {
    if a == [] {
      assert a + b == b;
    } else {
      assert (a + b)[0] == a[0] && (a + b)[1..] == a[1..] + b;
      StripPrefixesAppend(StripPrefix(s, a[0]), a[1..], b);
    }
  }

  /**
   * When the `i`-th prefix opens the text and no earlier one does, the loop
   * cuts that prefix and strips the rest; later prefixes that do not open
   * the stripped rest change nothing.
   */
  lemma OnePrefixCut(q: string, rest: string, prefixes: seq<string>, i: nat)
    requires i < |prefixes| && |q| == |prefixes[i]| && Lower(q) == Lower(prefixes[i])
    requires forall j | 0 <= j < i :: !StartsWithIgnoreCase(q + rest, prefixes[j])
    requires forall j | i < j < |prefixes| :: !StartsWithIgnoreCase(Strip(rest), prefixes[j])
    ensures StripPrefixes(q + rest, prefixes) == Strip(rest)
  {
    assert prefixes == prefixes[..i] + prefixes[i..];
    StripPrefixesAppend(q + rest, prefixes[..i], prefixes[i..]);
    NoneBeforeKept(q + rest, prefixes, i);
    StripPrefixesStep(q + rest, prefixes, i);
    PrefixCut(q, rest, prefixes[i]);
    NoneAfterKept(Strip(rest), prefixes, i);
  }

  lemma NoneBeforeKept(s: string, prefixes: seq<string>, i: nat)
    requires i <= |prefixes|
    requires forall j | 0 <= j < i :: !StartsWithIgnoreCase(s, prefixes[j])
    ensures StripPrefixes(s, prefixes[..i]) == s
  {
    var before := prefixes[..i];
    forall j | 0 <= j < |before| ensures !StartsWithIgnoreCase(s, before[j]) {
      assert before[j] == prefixes[j];
    }
    NoPrefixNoChange(s, before);
  }

  lemma NoneAfterKept(s: string, prefixes: seq<string>, i: nat)
    requires i < |prefixes|
    requires forall j | i < j < |prefixes| :: !StartsWithIgnoreCase(s, prefixes[j])
    ensures StripPrefixes(s, prefixes[i + 1..]) == s
  {
    var after := prefixes[i + 1..];
    forall j | 0 <= j < |after| ensures !StartsWithIgnoreCase(s, after[j]) {
      assert after[j] == prefixes[i + 1 + j];
    }
    NoPrefixNoChange(s, after);
  }

  lemma StripPrefixesStep(s: string, prefixes: seq<string>, i: nat)
    requires i < |prefixes|
    ensures StripPrefixes(s, prefixes[i..]) == StripPrefixes(StripPrefix(s, prefixes[i]), prefixes[i + 1..])
  {
    assert prefixes[i..][0] == prefixes[i];
    assert prefixes[i..][1..] == prefixes[i + 1..];
  }

  /** Text that opens with none of the prefixes comes out of the prefix loop unchanged. */
  lemma {:induction false} NoPrefixNoChange(s: string, prefixes: seq<string>)
    requires forall i | 0 <= i < |prefixes| :: !StartsWithIgnoreCase(s, prefixes[i])
    ensures StripPrefixes(s, prefixes) == s
  {
    if prefixes != [] {
      NoPrefixNoChange(s, prefixes[1..]);
    }
  }

  /** The end of the run of whitespace starting at `i`. */
  function SpaceRunEnd(s: string, i: nat): (j: nat)
    requires i <= |s|
    ensures i <= j <= |s| && AllSpace(s[i..j]) && (j < |s| ==> !IsSpace(s[j]))
    decreases |s| - i
  {
    if i < |s| && IsSpace(s[i]) then SpaceRunEnd(s, i + 1) else i
  }

  /** Whether a comma at `s[0]` is followed, after optional whitespace, by `}` or `]`. */
  predicate TrailingCommaAt(s: string)
    requires s != []
  {
    s[0] == ',' && var j := SpaceRunEnd(s, 1); j < |s| && (s[j] == '}' || s[j] == ']')
  }

  /**
   * `re.sub(r",\s*([\}\]])", r"\1", s)`: every comma followed by optional
   * whitespace and a closing brace or bracket is deleted with that whitespace,
   * matches taken left to right without overlapping.
   */
  function RemoveTrailingCommas(s: string): (r: string)
    ensures |r| <= |s|
    decreases |s|
  {
    if s == [] then []
    else if TrailingCommaAt(s) then
      var j := SpaceRunEnd(s, 1);
      [s[j]] + RemoveTrailingCommas(s[j + 1..])
    else [s[0]] + RemoveTrailingCommas(s[1..])
  }

  predicate IsCloser(c: char) {
    c == '}' || c == ']'
  }

  /** Whether `s[i]` is a comma, or whitespace reached from a comma by walking back over whitespace. */
  predicate CommaRunAt(s: string, i: nat)
    requires i < |s|
    decreases i
  {
    s[i] == ',' || (IsSpace(s[i]) && i > 0 && CommaRunAt(s, i - 1))
  }

  /** Whether `s[i]` lies in a run of a comma and whitespace that ends just before `}` or `]`. */
  predicate Dropped(s: string, i: nat)
    requires i < |s|
  {
    CommaRunAt(s, i) && var j := SpaceRunEnd(s, i + 1); j < |s| && IsCloser(s[j])
  }

  /** The characters of `s` from index `i` on that are not dropped, in order. */
  function KeptFrom(s: string, i: nat): string
    requires i <= |s|
    decreases |s| - i
  {
    if i == |s| then [] else (if Dropped(s, i) then [] else [s[i]]) + KeptFrom(s, i + 1)
  }

  lemma {:induction false} SpaceRunEndIs(s: string, k: nat, j: nat)
    requires k <= j <= |s| && AllSpace(s[k..j]) && (j < |s| ==> !IsSpace(s[j]))
    ensures SpaceRunEnd(s, k) == j
    decreases j - k
  {
    if k < j {
      assert IsSpace(s[k..j][0]);
      assert s[k + 1..j] == s[k..j][1..];
      SpaceRunEndIs(s, k + 1, j);
    }
  }

  /** The whitespace run measured in a suffix is the same run, shifted. */
  lemma SpaceRunEndShift(s: string, i: nat, k: nat)
    requires i + k <= |s|
    ensures SpaceRunEnd(s[i..], k) == SpaceRunEnd(s, i + k) - i
  {
    var j := SpaceRunEnd(s, i + k);
    assert s[i..][k..j - i] == s[i + k..j];
    SpaceRunEndIs(s[i..], k, j - i);
  }

  lemma {:induction false} CommaRunThrough(s: string, i: nat, k: nat)
    requires i <= k < |s| && s[i] == ',' && AllSpace(s[i + 1..k + 1])
    ensures CommaRunAt(s, k)
    decreases k - i
  {
    if i < k {
      assert IsSpace(s[i + 1..k + 1][k - i - 1]);
      assert s[i + 1..k] == s[i + 1..k + 1][..k - i - 1];
      CommaRunThrough(s, i, k - 1);
    }
  }

  /** Every character of a comma-and-whitespace run before a closer is dropped. */
  lemma {:induction false} DroppedRun(s: string, i: nat, k: nat, j: nat)
    requires i <= k <= j < |s| && i < j && s[i] == ',' && AllSpace(s[i + 1..j]) && IsCloser(s[j])
    ensures KeptFrom(s, k) == KeptFrom(s, j)
    decreases j - k
  {
    if k < j {
      assert s[i + 1..k + 1] == s[i + 1..j][..k - i];
      CommaRunThrough(s, i, k);
      assert s[k + 1..j] == s[i + 1..j][k - i..];
      SpaceRunEndIs(s, k + 1, j);
      DroppedRun(s, i, k + 1, j);
    }
  }

  /** At a trailing comma, the substitution jumps to the closer. */
  lemma TrailingCommaSubst(s: string, i: nat)
    requires i < |s| && TrailingCommaAt(s[i..])
    ensures var j := SpaceRunEnd(s, i + 1);
      j < |s| && RemoveTrailingCommas(s[i..]) == [s[j]] + RemoveTrailingCommas(s[j + 1..])
  {
    var t := s[i..];
    SpaceRunEndShift(s, i, 1);
    var j := SpaceRunEnd(s, i + 1);
    assert s[j] == t[j - i];
    assert t[j - i + 1..] == s[j + 1..];
  }

  /** At a trailing comma, the filter drops everything up to the closer and keeps the closer. */
  lemma TrailingCommaFilter(s: string, i: nat)
    requires i < |s| && TrailingCommaAt(s[i..])
    ensures var j := SpaceRunEnd(s, i + 1);
      j < |s| && !Dropped(s, j) && KeptFrom(s, i) == [s[j]] + KeptFrom(s, j + 1)
  {
    TrailingCommaRun(s, i);
    var j := SpaceRunEnd(s, i + 1);
    DroppedRun(s, i, i, j);
    CloserKept(s, j);
  }

  lemma CloserKept(s: string, j: nat)
    requires j < |s| && IsCloser(s[j])
    ensures !Dropped(s, j) && KeptFrom(s, j) == [s[j]] + KeptFrom(s, j + 1)
  {
    assert !IsSpace(s[j]) && !CommaRunAt(s, j);
  }

  /** A trailing comma found in a suffix, located in the whole text. */
  lemma TrailingCommaRun(s: string, i: nat)
    requires i < |s| && TrailingCommaAt(s[i..])
    ensures var j := SpaceRunEnd(s, i + 1);
      i < j < |s| && s[i] == ',' && AllSpace(s[i + 1..j]) && IsCloser(s[j])
  {
    var t := s[i..];
    SpaceRunEndShift(s, i, 1);
    var j := SpaceRunEnd(s, i + 1);
    assert s[j] == t[j - i];
  }

  /** Elsewhere, from a position not inside a dropped run, both keep the character. */
  lemma PlainCharStep(s: string, i: nat)
    requires i < |s| && !TrailingCommaAt(s[i..])
    requires i == 0 || !Dropped(s, i - 1)
    ensures RemoveTrailingCommas(s[i..]) == [s[i]] + RemoveTrailingCommas(s[i + 1..])
    ensures KeptFrom(s, i) == [s[i]] + KeptFrom(s, i + 1)
    ensures !Dropped(s, i)
  {
    var t := s[i..];
    assert t[0] == s[i] && t[1..] == s[i + 1..];
    PlainCharKept(s, i);
  }

  lemma PlainCharKept(s: string, i: nat)
    requires i < |s| && !TrailingCommaAt(s[i..])
    requires i == 0 || !Dropped(s, i - 1)
    ensures !Dropped(s, i)
  {
    var j := SpaceRunEnd(s, i + 1);
    if s[i] == ',' {
      SpaceRunEndShift(s, i, 1);
      assert j < |s| ==> s[j] == s[i..][j - i];
    } else if IsSpace(s[i]) && i > 0 {
      assert SpaceRunEnd(s, i) == j;
    }
  }

  /** One step of the induction below, at a trailing comma. */
  lemma TrailingCommaCase(s: string, i: nat)
    requires i < |s| && TrailingCommaAt(s[i..])
    requires var j := SpaceRunEnd(s, i + 1);
      j < |s| && RemoveTrailingCommas(s[j + 1..]) == KeptFrom(s, j + 1)
    ensures RemoveTrailingCommas(s[i..]) == KeptFrom(s, i)
  {
    TrailingCommaSubst(s, i);
    TrailingCommaFilter(s, i);
  }

  /** One step of the induction below, at any other character. */
  lemma PlainCharCase(s: string, i: nat)
    requires i < |s| && !TrailingCommaAt(s[i..])
    requires i == 0 || !Dropped(s, i - 1)
    requires RemoveTrailingCommas(s[i + 1..]) == KeptFrom(s, i + 1)
    ensures RemoveTrailingCommas(s[i..]) == KeptFrom(s, i)
  {
    PlainCharStep(s, i);
  }

  /**
   * From a position not inside a dropped run, the substitution keeps
   * exactly the characters that are not dropped.
   */
  lemma {:induction false} RemoveTrailingCommasFrom(s: string, i: nat)
    requires i <= |s|
    requires i == 0 || !Dropped(s, i - 1)
    ensures RemoveTrailingCommas(s[i..]) == KeptFrom(s, i)
    decreases |s| - i
  {
    if i == |s| {
      assert s[i..] == [];
    } else if TrailingCommaAt(s[i..]) {
      var j := SpaceRunEnd(s, i + 1);
      TrailingCommaFilter(s, i);
      assert j + 1 - 1 == j && !Dropped(s, j);
      RemoveTrailingCommasFrom(s, j + 1);
      TrailingCommaCase(s, i);
    } else {
      PlainCharKept(s, i);
      RemoveTrailingCommasFrom(s, i + 1);
      PlainCharCase(s, i);
    }
  }

  /**
   * The substitution deletes exactly the characters lying in a run of a comma
   * and whitespace that ends just before `}` or `]`, and keeps every other
   * character in order.
   */
  lemma RemoveTrailingCommasDropsRuns(s: string)
    ensures RemoveTrailingCommas(s) == KeptFrom(s, 0)
  {
    assert s[0..] == s;
    RemoveTrailingCommasFrom(s, 0);
  }

  /** The end of the line containing index `i`: the next newline, or the end of the text. */
  function LineEnd(s: string, i: nat): (j: nat)
    requires i <= |s|
    ensures i <= j <= |s| && '\n' !in s[i..j] && (j < |s| ==> s[j] == '\n')
    decreases |s| - i
  {
    if i < |s| && s[i] != '\n' then
      var j := LineEnd(s, i + 1);
      assert s[i..j] == [s[i]] + s[i + 1..j];
      j
    else i
  }

  predicate NoLineComment(s: string) {
    forall k | 0 <= k < |s| - 1 :: !(s[k] == '/' && s[k + 1] == '/')
  }

  /** Whether `s` opens with a line comment marker. */
  predicate CommentAt(s: string) {
    |s| >= 2 && s[0] == '/' && s[1] == '/'
  }

  /**
   * `re.sub(r"//.*$", "", s, flags=re.MULTILINE)`: from each `//` to the end
   * of its line (the newline itself is kept).
   */
  function StripLineComments(s: string): (r: string)
    ensures NoLineComment(r)
    ensures r != [] ==> s != [] && r[0] == if CommentAt(s) then '\n' else s[0]
    decreases |s|
  {
    if s == [] then []
    else if CommentAt(s) then StripLineComments(s[LineEnd(s, 2)..])
    else [s[0]] + StripLineComments(s[1..])
  }

  /** Text without `//` is left as it is. */
  lemma {:induction false} NoCommentNoChange(s: string)
    requires NoLineComment(s)
    ensures StripLineComments(s) == s
    decreases |s|
  {
    if s != [] {
      assert !CommentAt(s);
      NoLineCommentTail(s);
      NoCommentNoChange(s[1..]);
    }
  }

  lemma NoLineCommentTail(s: string)
    requires s != [] && NoLineComment(s)
    ensures NoLineComment(s[1..])
  {
    forall k | 0 <= k < |s[1..]| - 1 ensures !(s[1..][k] == '/' && s[1..][k + 1] == '/') {
      assert s[1..][k] == s[k + 1] && s[1..][k + 1] == s[k + 2];
    }
  }

  /**
   * Text without `//` is kept as it is in front of whatever follows, provided
   * the two do not join into a `//`.
   */
  lemma {:induction false} CommentFreeTextKept(a: string, t: string)
    requires NoLineComment(a)
    requires a == [] || t == [] || !(a[|a| - 1] == '/' && t[0] == '/')
    ensures StripLineComments(a + t) == a + StripLineComments(t)
    decreases |a|
  {
    if a == [] {
      assert a + t == t;
    } else {
      var a' := a[1..];
      NoCommentJoined(a, t);
      CommentFreeTextKept(a', t);
      PlainStep(a + t);
      assert (a + t)[1..] == a' + t;
      ConsAppend(a, StripLineComments(t));
    }
  }

  lemma ConsAppend(a: string, r: string)
    requires a != []
    ensures [a[0]] + (a[1..] + r) == a + r
  {
    assert [a[0]] + a[1..] == a;
  }

  lemma PlainStep(s: string)
    requires s != [] && !CommentAt(s)
    ensures StripLineComments(s) == [s[0]] + StripLineComments(s[1..])
  {
  }

  /** The first character of `a + t` opens no comment, and the rest of `a` meets the same conditions. */
  lemma NoCommentJoined(a: string, t: string)
    requires a != [] && NoLineComment(a)
    requires t == [] || !(a[|a| - 1] == '/' && t[0] == '/')
    ensures !CommentAt(a + t) && (a + t)[0] == a[0]
    ensures NoLineComment(a[1..])
    ensures a[1..] == [] || t == [] || !(a[1..][|a[1..]| - 1] == '/' && t[0] == '/')
  {
    if |a| >= 2 {
      assert (a + t)[1] == a[1];
    } else if t != [] {
      assert (a + t)[1] == t[0];
    }
    NoLineCommentTail(a);
  }

  /** The line end from `i` is the first newline at or after `i`, or the end of the text. */
  lemma {:induction false} LineEndAt(s: string, i: nat, k: nat)
    requires i <= k <= |s| && '\n' !in s[i..k] && (k < |s| ==> s[k] == '\n')
    ensures LineEnd(s, i) == k
    decreases k - i
  {
    if i < k {
      assert s[i] == s[i..k][0];
      assert s[i + 1..k] == s[i..k][1..];
      LineEndAt(s, i + 1, k);
    }
  }

  /** A line without `//` is kept with its newline. */
  lemma CommentFreeLineKept(a: string, rest: string)
    requires NoLineComment(a)
    ensures StripLineComments(a + "\n" + rest) == a + "\n" + StripLineComments(rest)
  {
    var u := "\n" + rest;
    assert a + "\n" + rest == a + u;
    CommentFreeTextKept(a, u);
    assert u[1..] == rest;
  }

  /** A line that is all comment leaves only its newline. */
  lemma CommentOnlyLine(c: string, rest: string)
    requires '\n' !in c
    ensures StripLineComments("//" + c + "\n" + rest) == "\n" + StripLineComments(rest)
  {
    var u := "//" + c + "\n" + rest;
    assert CommentAt(u);
    assert u[2..2 + |c|] == c && u[2 + |c|] == '\n';
    LineEndAt(u, 2, 2 + |c|);
    var v := u[2 + |c|..];
    assert v == "\n" + rest;
    assert !CommentAt(v) && v[1..] == rest;
  }

  /** A line `a // c` becomes `a`: the text before the comment and the newline are kept. */
  lemma CommentLineStripped(a: string, c: string, rest: string)
    requires NoLineComment(a) && (a == [] || a[|a| - 1] != '/')
    requires '\n' !in c
    ensures StripLineComments(a + "//" + c + "\n" + rest) == a + "\n" + StripLineComments(rest)
  {
    var u := "//" + c + "\n" + rest;
    assert a + "//" + c + "\n" + rest == a + u;
    CommentFreeTextKept(a, u);
    CommentOnlyLine(c, rest);
    assert a + ("\n" + StripLineComments(rest)) == a + "\n" + StripLineComments(rest);
  }

  /** A comment running to the end of the text is removed entirely. */
  lemma CommentOnlyEnd(c: string)
    requires '\n' !in c
    ensures StripLineComments("//" + c) == []
  {
    var u := "//" + c;
    assert CommentAt(u);
    assert u[2..|u|] == c;
    LineEndAt(u, 2, |u|);
    assert u[|u|..] == [];
  }

  /** A comment on the last line is removed up to the end of the text. */
  lemma CommentAtEndStripped(a: string, c: string)
    requires NoLineComment(a) && (a == [] || a[|a| - 1] != '/')
    requires '\n' !in c
    ensures StripLineComments(a + "//" + c) == a
  {
    var u := "//" + c;
    assert a + "//" + c == a + u;
    CommentFreeTextKept(a, u);
    CommentOnlyEnd(c);
    assert a + [] == a;
  }


  function LineBreaks(s: string): nat {
    if s == [] then 0 else (if s[0] == '\n' then 1 else 0) + LineBreaks(s[1..])
  }

  lemma {:induction false} LineBreaksSkip(s: string, i: nat, j: nat)
    requires i <= j <= |s| && '\n' !in s[i..j]
    ensures LineBreaks(s[i..]) == LineBreaks(s[j..])
    decreases j - i
  {
    if i < j {
      assert s[i] == s[i..j][0];
      assert s[i..][1..] == s[i + 1..];
      assert s[i + 1..j] == s[i..j][1..];
      LineBreaksSkip(s, i + 1, j);
    }
  }

  /** Removing comments never removes a line break: the text keeps its lines. */
  lemma {:induction false} LineBreaksKept(s: string)
    ensures LineBreaks(StripLineComments(s)) == LineBreaks(s)
    decreases |s|
  {
    if s != [] {
      if CommentAt(s) {
        var j := LineEnd(s, 2);
        LineBreaksKept(s[j..]);
        LineBreaksSkip(s, 2, j);
        assert s[1..][1..] == s[2..];
      } else {
        LineBreaksKept(s[1..]);
        var r := StripLineComments(s);
        assert r[1..] == StripLineComments(s[1..]);
      }
    }
  }

  /** `_clean_json_string`, as a function of its input. */
  function Clean(text: string): (r: string)
    ensures NoLineComment(r)
    ensures AllSpace(text) ==> r == []
  {
    var stripped := Strip(text);
    var unprefixed := StripPrefixes(stripped, Prefixes);
    assert stripped == [] ==> unprefixed == [] by {
      if stripped == [] {
        NoPrefixNoChange(stripped, Prefixes);
      }
    }
    StripLineComments(RemoveTrailingCommas(unprefixed))
  }

  /** `_clean_json_string`: the prefix loop reassigns `cleaned`, then two substitutions. */
  method CleanJsonString(text: string) returns (cleaned: string)
    ensures cleaned == Clean(text)
    ensures NoLineComment(cleaned)
  {
    cleaned := Strip(text);
    for i := 0 to |Prefixes|
      invariant StripPrefixes(cleaned, Prefixes[i..]) == StripPrefixes(Strip(text), Prefixes)
    {
      var prefix := Prefixes[i];
      StripPrefixesStep(cleaned, Prefixes, i);
      if StartsWith(Lower(cleaned), Lower(prefix)) {
        cleaned := Strip(cleaned[|prefix|..]);
      }
    }
    cleaned := RemoveTrailingCommas(cleaned);
    cleaned := StripLineComments(cleaned);
  }

  // ---------------------------------------------------------------------------
  // extract_json
  // ---------------------------------------------------------------------------

  /**
   * The library calls `extract_json` makes: `json.loads`, and the two
   * `re.findall` searches for fenced blocks (```` ```json ... ``` ````,
   * case-insensitive, and any ```` ``` ... ``` ````), each returning the
   * captured interiors in order.
   */
  datatype Library = Library(
    loads: Parser,
    jsonBlocks: string -> seq<string>,
    genericBlocks: string -> seq<string>)

  function StripEach(xs: seq<string>): (r: seq<string>)
    ensures |r| == |xs| && forall i | 0 <= i < |xs| :: r[i] == Strip(xs[i])
  {
    seq(|xs|, i requires 0 <= i < |xs| => Strip(xs[i]))
  }

  /** Strategy 4's scan: from the earlier of the first `{` and the first `[`, with the matching closer. */
  function ScanFromFirstDelimiter(text: string): (r: Option<string>)
    requires '{' in text || '[' in text
    ensures r.Some? ==> r.value != [] && (r.value[0] == '{' || r.value[0] == '[')
  {
    var startObj := Find(text, '{');
    var startArr := Find(text, '[');
    if startArr == -1 || (startObj != -1 && startObj < startArr) then
      BalancedPrefix(text[startObj..], '{', '}')
    else
      BalancedPrefix(text[startArr..], '[', ']')
  }

  /** `extract_json`: five strategies, the first success wins. */
  function ExtractJson(text: string, lib: Library): (r: Option<Json>)
    ensures text == "" ==> r == None
    ensures text != "" && lib.loads(Strip(text)).Ok? ==> r == Some(lib.loads(Strip(text)).value)
  {
    if text == "" then None
    else if lib.loads(Strip(text)).Ok? then Some(lib.loads(Strip(text)).value)
    else
      var fenced := lib.jsonBlocks(text);
      if fenced != [] && lib.loads(Strip(fenced[0])).Ok? then Some(lib.loads(Strip(fenced[0])).value)
      else
        var generic := FirstParsed(StripEach(lib.genericBlocks(text)), lib.loads);
        if generic.Some? then generic
        else if '{' !in text && '[' !in text then None
        else LateStrategies(text, lib)
  }

  /** Strategies 4 and 5: the balanced scan from the first delimiter, then the cleanup pass. */
  function LateStrategies(text: string, lib: Library): Option<Json>
    requires '{' in text || '[' in text
  {
    var jsonStr := ScanFromFirstDelimiter(text);
    if jsonStr.Some? && jsonStr.value != "" && lib.loads(jsonStr.value).Ok? then
      Some(lib.loads(jsonStr.value).value)
    else
      lib.loads(Clean(text)).ToOption()
  }

  /** The texts strategies 1 to 3 parse: the trimmed text, the first json block, every generic block. */
  function EarlyCandidates(text: string, lib: Library): seq<string> {
    var fenced := lib.jsonBlocks(text);
    [Strip(text)] + (if fenced != [] then [Strip(fenced[0])] else []) + StripEach(lib.genericBlocks(text))
  }

  /** The texts strategies 4 and 5 parse; none at all when the text holds neither `{` nor `[`. */
  function LateCandidates(text: string): seq<string> {
    if '{' !in text && '[' !in text then [] else ScanCandidate(text) + [Clean(text)]
  }

  /** The text strategy 4 parses: the balanced scan's result, when it is a non-empty string. */
  function ScanCandidate(text: string): seq<string>
    requires '{' in text || '[' in text
  {
    var jsonStr := ScanFromFirstDelimiter(text);
    if jsonStr.Some? && jsonStr.value != "" then [jsonStr.value] else []
  }

  /**
   * `extract_json` is an ordered fallback: its result is the value of the
   * first candidate text, in strategy order, that parses.
   */
  lemma ExtractJsonIsFirstSuccess(text: string, lib: Library)
    requires text != ""
    ensures ExtractJson(text, lib) == FirstParsed(EarlyCandidates(text, lib) + LateCandidates(text), lib.loads)
  {
    var fenced := lib.jsonBlocks(text);
    var one := [Strip(text)];
    var two := if fenced != [] then [Strip(fenced[0])] else [];
    var three := StripEach(lib.genericBlocks(text));
    var late := LateCandidates(text);
    var all := one + (two + (three + late));
    assert EarlyCandidates(text, lib) == one + two + three;
    SeqAssoc(one, two, three, late);
    FirstParsedAppend(one, two + (three + late), lib.loads);
    if lib.loads(Strip(text)).Err? {
      assert FirstParsed(all, lib.loads) == FirstParsed(two + (three + late), lib.loads);
      FirstParsedAppend(two, three + late, lib.loads);
      if !(fenced != [] && lib.loads(Strip(fenced[0])).Ok?) {
        assert FirstParsed(two, lib.loads) == None;
        FirstParsedAppend(three, late, lib.loads);
        if FirstParsed(three, lib.loads).None? && ('{' in text || '[' in text) {
          LateStrategiesIsFirstSuccess(text, lib);
        }
      }
    }
  }

  lemma SeqAssoc(a: seq<string>, b: seq<string>, c: seq<string>, d: seq<string>)
    ensures a + b + c + d == a + (b + (c + d))
  {
  }

  lemma LateStrategiesIsFirstSuccess(text: string, lib: Library)
    requires '{' in text || '[' in text
    ensures LateStrategies(text, lib) == FirstParsed(LateCandidates(text), lib.loads)
  {
    FirstParsedAppend(ScanCandidate(text), [Clean(text)], lib.loads);
  }

  /**
   * Without `{` and `[` in the text, once the first three strategies fail the
   * result is None: the cleanup pass is never tried, even if it would parse.
   */
  lemma NoDelimiterSkipsCleanup(text: string, lib: Library)
    requires text != "" && '{' !in text && '[' !in text
    ensures ExtractJson(text, lib) == FirstParsed(EarlyCandidates(text, lib), lib.loads)
  {
    ExtractJsonIsFirstSuccess(text, lib);
    assert EarlyCandidates(text, lib) + LateCandidates(text) == EarlyCandidates(text, lib);
  }

  /** The scan of `{"x": 1,}` takes the whole text. */
  lemma TrailingCommaExampleScan()
    ensures ScanFromFirstDelimiter("{\"x\": 1,}") == Some("{\"x\": 1,}")
  {
    var t := "{\"x\": 1,}";
    QuotedRunIsInert(t, '{', '}', 1, 3);
    assert StateAt(t, '{', '}', 8) == ScanState(1, false, false);
    BalancedPrefixIsFirstReturn(t, '{', '}');
    assert ReturnsAt(t, '{', '}', 8);
    assert forall k | 0 <= k < 8 :: !ReturnsAt(t, '{', '}', k);
    assert t[..9] == t;
    assert Find(t, '{') == 0;
  }

  /** A stretch without commas passes through the trailing-comma substitution untouched. */
  lemma {:induction false} CommaFreePrefixKept(s: string, k: nat)
    requires k <= |s| && ',' !in s[..k]
    ensures RemoveTrailingCommas(s) == s[..k] + RemoveTrailingCommas(s[k..])
    decreases k
  {
    if k > 0 {
      assert s[0] == s[..k][0];
      assert !TrailingCommaAt(s);
      assert s[1..][..k - 1] == s[1..k];
      assert ',' !in s[1..][..k - 1];
      CommaFreePrefixKept(s[1..], k - 1);
      assert s[1..][k - 1..] == s[k..];
      assert s[..k] == [s[0]] + s[1..k];
    }
  }

  /** Text without a comma is left unchanged. */
  lemma NoCommaNoChange(s: string)
    requires ',' !in s
    ensures RemoveTrailingCommas(s) == s
  {
    assert s[..|s|] == s && s[|s|..] == [];
    CommaFreePrefixKept(s, |s|);
  }

  lemma TrailingCommaStripSteps(t: string)
    requires t == "{\"x\": 1,}"
    ensures Strip(t) == t
    ensures StripPrefixes(Strip(t), Prefixes) == t
  {
    assert TrimStart(t) == t;
    assert TrimEnd(t) == t;
    forall i | 0 <= i < |Prefixes| ensures !StartsWithIgnoreCase(t, Prefixes[i]) {
      assert Lower(t)[0] == '{';
      assert Lower(Prefixes[i])[0] != '{';
    }
    NoPrefixNoChange(t, Prefixes);
  }

  lemma TrailingCommaRemoveSteps(t: string)
    requires t == "{\"x\": 1,}"
    ensures RemoveTrailingCommas(t) == "{\"x\": 1}"
  {
    CommaFreePrefixKept(t, 7);
    CommaBeforeClose(t[7..]);
  }

  lemma CommaBeforeClose(rest: string)
    requires rest == ",}"
    ensures RemoveTrailingCommas(rest) == "}"
  {
    assert SpaceRunEnd(rest, 1) == 1;
    assert TrailingCommaAt(rest);
    assert rest[2..] == [];
  }

  lemma TrailingCommaCommentSteps(u: string)
    requires u == "{\"x\": 1}"
    ensures StripLineComments(u) == u
  {
    NoCommentNoChange(u);
  }

  /** The cleanup of `{"x": 1,}` drops the trailing comma. */
  lemma TrailingCommaExampleClean()
    ensures Clean("{\"x\": 1,}") == "{\"x\": 1}"
  {
    TrailingCommaStripSteps("{\"x\": 1,}");
    TrailingCommaRemoveSteps("{\"x\": 1,}");
    TrailingCommaCommentSteps("{\"x\": 1}");
  }

  /** A trailing comma defeats every strategy but the cleanup pass, which recovers the object. */
  lemma TrailingCommaRecovered(lib: Library, v: Json)
    requires lib.loads("{\"x\": 1,}").Err?
    requires lib.loads("{\"x\": 1}") == Ok(v)
    requires lib.jsonBlocks("{\"x\": 1,}") == [] && lib.genericBlocks("{\"x\": 1,}") == []
    ensures ExtractJson("{\"x\": 1,}", lib) == Some(v)
  {
    TrailingCommaStripSteps("{\"x\": 1,}");
    TrailingCommaExampleScan();
    TrailingCommaExampleClean();
    NoBlocksFail("{\"x\": 1,}", lib);
    CleanupRecovers("{\"x\": 1,}", lib);
  }

  lemma NoBlocksFail(text: string, lib: Library)
    requires lib.jsonBlocks(text) == [] && lib.genericBlocks(text) == []
    ensures FirstParsed(StripEach(lib.genericBlocks(text)), lib.loads).None?
  {
    assert StripEach(lib.genericBlocks(text)) == [];
  }

  /**
   * Text with a delimiter on which strategies 1 to 4 all fail is recovered
   * exactly when its cleaned form parses, and then as that parse.
   */
  lemma CleanupRecovers(text: string, lib: Library)
    requires text != "" && ('{' in text || '[' in text)
    requires lib.loads(Strip(text)).Err?
    requires lib.jsonBlocks(text) != [] ==> lib.loads(Strip(lib.jsonBlocks(text)[0])).Err?
    requires FirstParsed(StripEach(lib.genericBlocks(text)), lib.loads).None?
    requires var s := ScanFromFirstDelimiter(text); s.Some? ==> lib.loads(s.value).Err?
    ensures ExtractJson(text, lib) == lib.loads(Clean(text)).ToOption()
  {
    EarlyFailuresFallThrough(text, lib);
  }

  /** When strategies 1 to 3 all fail on text holding a delimiter, strategies 4 and 5 decide. */
  lemma EarlyFailuresFallThrough(text: string, lib: Library)
    requires text != "" && ('{' in text || '[' in text)
    requires lib.loads(Strip(text)).Err?
    requires lib.jsonBlocks(text) != [] ==> lib.loads(Strip(lib.jsonBlocks(text)[0])).Err?
    requires FirstParsed(StripEach(lib.genericBlocks(text)), lib.loads).None?
    ensures ExtractJson(text, lib) == LateStrategies(text, lib)
  {
  }

  /** `OUTPUT: {"x": 1}` loses its opening in any letter case, and the object is left. */
  lemma PrefixExampleClean()
    ensures Clean("OUTPUT: {\"x\": 1}") == "{\"x\": 1}"
  {
    assert "OUTPUT: {\"x\": 1}" == "OUTPUT:" + " {\"x\": 1}";
    PrefixExampleUnprefixed("OUTPUT:", " {\"x\": 1}", "{\"x\": 1}");
    PrefixExampleRest("{\"x\": 1}");
  }

  lemma PrefixExampleUnprefixed(q: string, rest: string, u: string)
    requires q == "OUTPUT:" && rest == " {\"x\": 1}" && u == "{\"x\": 1}"
    ensures StripPrefixes(Strip(q + rest), Prefixes) == u
  {
    PrefixExampleStrips(q, rest, u);
    PrefixExampleMatch(q, rest);
    PrefixExampleLater(Strip(rest));
    OnePrefixCut(q, rest, Prefixes, 3);
  }

  lemma PrefixExampleStrips(q: string, rest: string, u: string)
    requires q == "OUTPUT:" && rest == " {\"x\": 1}" && u == "{\"x\": 1}"
    ensures Strip(q + rest) == q + rest && Strip(rest) == u
  {
    NoOuterSpaceStrip(q + rest);
    assert SkipSpace(rest, 0) == 1;
    assert TrimStart(rest) == u;
    assert TrimEnd(u) == u;
  }

  lemma PrefixExampleMatch(q: string, rest: string)
    requires q == "OUTPUT:" && rest == " {\"x\": 1}"
    ensures 3 < |Prefixes| && |q| == |Prefixes[3]| && Lower(q) == Lower(Prefixes[3])
    ensures forall j | 0 <= j < 3 :: !StartsWithIgnoreCase(q + rest, Prefixes[j])
  {
    assert Lower(q) == Lower(Prefixes[3]);
    forall j | 0 <= j < 3 ensures !StartsWithIgnoreCase(q + rest, Prefixes[j]) {
      assert Lower(q + rest)[0] == 'o';
      assert Lower(Prefixes[j])[0] != 'o';
    }
  }

  lemma PrefixExampleLater(u: string)
    requires u == "{\"x\": 1}"
    ensures forall j | 3 < j < |Prefixes| :: !StartsWithIgnoreCase(u, Prefixes[j])
  {
    assert Lower(u)[0] == '{' && Lower(Prefixes[4])[0] == 'r';
  }

  lemma PrefixExampleRest(u: string)
    requires u == "{\"x\": 1}"
    ensures StripLineComments(RemoveTrailingCommas(u)) == u
  {
    NoCommaNoChange(u);
    NoCommentNoChange(u);
  }
}
