/**
 * The JavaScript string built-ins the pages rely on, written out over
 * `seq<char>`: whitespace trimming, substring tests, comma stripping,
 * the first run of decimal digits and decimal rendering of integers.
 */
module Text {
  import opened Wrappers

  /**
   * The characters `String.prototype.trim` removes and `\s` matches: the
   * ECMAScript white space (tab, vertical tab, form feed, space, no-break
   * space, the byte-order mark and the space separators of Unicode 15) and
   * line terminators (line feed, carriage return, U+2028, U+2029).
   */
  predicate IsWhitespace(c: char) {
    c == ' ' || c == '\t' || c == '\n' || c == '\r' || c == '\U{000B}' || c == '\U{000C}' ||
    c == '\U{00A0}' || c == '\U{FEFF}' || c == '\U{1680}' || '\U{2000}' <= c <= '\U{200A}' ||
    c == '\U{2028}' || c == '\U{2029}' || c == '\U{202F}' || c == '\U{205F}' || c == '\U{3000}'
  }

  /** `s.trim() === ''`: every character is whitespace. */
  predicate IsBlank(s: string) {
    forall i :: 0 <= i < |s| ==> IsWhitespace(s[i])
  }

  predicate IsDigit(c: char) {
    '0' <= c <= '9'
  }

  /** `t` occurs in `s` starting at index `i`. */
  predicate OccursAt(s: string, t: string, i: int) {
    0 <= i <= |s| - |t| && s[i..i + |t|] == t
  }

  /** `s.includes(t)`. */
  predicate Contains(s: string, t: string) {
    exists i :: 0 <= i <= |s| - |t| && OccursAt(s, t, i)
  }

  /** Every string contains the empty string. */
  lemma ContainsEmpty(s: string)
    ensures Contains(s, "")
  {
    assert OccursAt(s, "", 0);
  }

  /** `toLowerCase` on one character, for the ASCII letters. */
  function LowerChar(c: char): (r: char)
    ensures 'A' <= c <= 'Z' ==> 'a' <= r <= 'z' && r as int == c as int + 32
    ensures !('A' <= c <= 'Z') ==> r == c
  {
    if 'A' <= c <= 'Z' then (c as int + 32) as char else c
  }

  /** `s.toLowerCase()`, character by character. */
  function ToLower(s: string): (r: string)
    ensures |r| == |s| && forall i :: 0 <= i < |s| ==> r[i] == LowerChar(s[i])
    ensures forall i :: 0 <= i < |r| ==> !('A' <= r[i] <= 'Z')
  {
    seq(|s|, i requires 0 <= i < |s| => LowerChar(s[i]))
  }

  /** Lower-casing twice changes nothing more. */
  lemma ToLowerIdempotent(s: string)
    ensures ToLower(ToLower(s)) == ToLower(s)
  {
  }

  /** An occurrence in the tail of `s` is an occurrence in `s`. */
  lemma ContainsTail(s: string, t: string)
    requires s != [] && Contains(s[1..], t)
    ensures Contains(s, t)
  {
    var i :| 0 <= i <= |s[1..]| - |t| && OccursAt(s[1..], t, i);
    assert s[i + 1..i + 1 + |t|] == s[1..][i..i + |t|];
    assert OccursAt(s, t, i + 1);
  }

  /** `s.replace(/,/g, '')`. */
  function RemoveCommas(s: string): (r: string)
    ensures forall i :: 0 <= i < |r| ==> r[i] != ','
    ensures |r| <= |s|
    ensures (forall i :: 0 <= i < |s| ==> s[i] != ',') ==> r == s
  {
    if s == [] then []
    else if s[0] == ',' then RemoveCommas(s[1..])
    else [s[0]] + RemoveCommas(s[1..])
  }

  /** Stripping commas works piece by piece: it distributes over concatenation. */
  lemma {:induction false} RemoveCommasAppend(a: string, b: string)
    ensures RemoveCommas(a + b) == RemoveCommas(a) + RemoveCommas(b)
  {
    if a != [] {
      assert (a + b)[1..] == a[1..] + b;
      RemoveCommasAppend(a[1..], b);
    } else {
      assert a + b == b;
    }
  }

  /** On one character: a comma disappears, anything else stays. */
  lemma RemoveCommasChar(c: char)
    ensures RemoveCommas([c]) == if c == ',' then [] else [c]
  {
  }

  /** The maximal run of digits at the start of `s`. */
  function LeadingDigits(s: string): (r: string)
    ensures |r| <= |s| && r == s[..|r|]
    ensures forall i :: 0 <= i < |r| ==> IsDigit(r[i])
    ensures |r| < |s| ==> !IsDigit(s[|r|])
  {
    if s != [] && IsDigit(s[0]) then [s[0]] + LeadingDigits(s[1..]) else []
  }

  /** `s.match(/\d+/)`: the first non-empty run of digits, if any. */
  function FirstDigitRun(s: string): (r: Option<string>)
    ensures r.None? <==> forall i :: 0 <= i < |s| ==> !IsDigit(s[i])
    ensures r.Some? ==> r.value != [] && Contains(s, r.value)
    ensures r.Some? ==> forall i :: 0 <= i < |r.value| ==> IsDigit(r.value[i])
  {
    if s == [] then None
    else if IsDigit(s[0]) then
      var d := LeadingDigits(s);
      assert OccursAt(s, d, 0);
      Some(d)
    else
      var r := FirstDigitRun(s[1..]);
      if r.Some? then
        ContainsTail(s, r.value);
        r
      else
        r
  }

  /** `i` is the index of the first digit of `s`. */
  predicate FirstDigitAt(s: string, i: int) {
    0 <= i < |s| && IsDigit(s[i]) && forall j :: 0 <= j < i ==> !IsDigit(s[j])
  }

  /** The run found is the one that starts at the first digit and extends as far as the digits go. */
  lemma {:induction false} FirstDigitRunAt(s: string, i: int)
    requires FirstDigitAt(s, i)
    ensures FirstDigitRun(s) == Some(LeadingDigits(s[i..]))
  {
    if i > 0 {
      assert FirstDigitAt(s[1..], i - 1);
      FirstDigitRunAt(s[1..], i - 1);
      assert s[1..][i - 1..] == s[i..];
    }
  }

  /** Whenever a run is found, some index is the first digit and the run is the digits from there on. */
  lemma {:induction false} FirstDigitRunStartsAtFirstDigit(s: string)
    requires FirstDigitRun(s).Some?
    ensures exists i :: FirstDigitAt(s, i) && FirstDigitRun(s).value == LeadingDigits(s[i..])
  {
    if IsDigit(s[0]) {
      assert FirstDigitAt(s, 0) && s[0..] == s;
    } else {
      FirstDigitRunStartsAtFirstDigit(s[1..]);
      var k :| FirstDigitAt(s[1..], k) && FirstDigitRun(s[1..]).value == LeadingDigits(s[1..][k..]);
      assert s[1..][k..] == s[k + 1..];
      assert FirstDigitAt(s, k + 1);
    }
  }

  function DigitValue(c: char): (v: nat)
    requires IsDigit(c)
    ensures v < 10
  {
    (c as int) - ('0' as int)
  }

  /** `parseInt` of a string made only of decimal digits. */
  function DigitsValue(ds: string): (v: nat)
    requires forall i :: 0 <= i < |ds| ==> IsDigit(ds[i])
    decreases |ds|
  {
    if ds == [] then 0
    else 10 * DigitsValue(ds[..|ds| - 1]) + DigitValue(ds[|ds| - 1])
  }

  function DigitChar(d: nat): (c: char)
    requires d < 10
    ensures IsDigit(c) && DigitValue(c) == d
  {
    ('0' as int + d) as char
  }

  /** Decimal rendering of a natural number, as a template literal gives it. */
  function NatToString(n: nat): (s: string)
    ensures s != []
    ensures forall i :: 0 <= i < |s| ==> IsDigit(s[i])
    ensures DigitsValue(s) == n
  {
    if n < 10 then [DigitChar(n)]
    else
      var s := NatToString(n / 10) + [DigitChar(n % 10)];
      assert s[..|s| - 1] == NatToString(n / 10);
      s
  }

  /** Decimal rendering of an integer (a leading '-' for negatives). */
  function IntToString(n: int): string {
    if n < 0 then "-" + NatToString(-n) else NatToString(n)
  }

  /** An occurrence at `i > 0` is one at `i - 1` in the tail, and the splice around it shifts with it. */
  lemma SpliceTail(s: string, pat: string, repl: string, i: int)
    requires 1 <= i <= |s| - |pat|
    ensures OccursAt(s, pat, i) <==> OccursAt(s[1..], pat, i - 1)
    ensures s[..i] + repl + s[i + |pat|..] == [s[0]] + (s[1..][..i - 1] + repl + s[1..][i - 1 + |pat|..])
  {
    assert s[1..][i - 1..i - 1 + |pat|] == s[i..i + |pat|];
    assert s[..i] == [s[0]] + s[1..][..i - 1];
    assert s[1..][i - 1 + |pat|..] == s[i + |pat|..];
  }

  /** `s.replace(pat, repl)` with a string pattern: only the first occurrence. */
  function ReplaceFirst(s: string, pat: string, repl: string): (r: string)
    requires pat != []
    ensures !Contains(s, pat) ==> r == s
    ensures |s| >= |pat| && s[..|pat|] == pat ==> r == repl + s[|pat|..]
    decreases |s|
  {
    if |s| < |pat| then
      assert !Contains(s, pat);
      s
    else if s[..|pat|] == pat then
      assert OccursAt(s, pat, 0);
      repl + s[|pat|..]
    else
      var rest := ReplaceFirst(s[1..], pat, repl);
      if Contains(s[1..], pat) then
        ContainsTail(s, pat);
        [s[0]] + rest
      else
        [s[0]] + rest
  }

  /** Only the first occurrence is replaced: the text before it and after it is kept as it is. */
  lemma {:induction false} ReplaceFirstAt(s: string, pat: string, repl: string, i: int)
    requires pat != [] && OccursAt(s, pat, i)
    requires forall j :: 0 <= j < i ==> !OccursAt(s, pat, j)
    ensures ReplaceFirst(s, pat, repl) == s[..i] + repl + s[i + |pat|..]
  {
    if i > 0 {
      assert s[..|pat|] != pat by {
        assert !OccursAt(s, pat, 0);
      }
      SpliceTail(s, pat, repl, i);
      forall j | 0 <= j < i - 1 ensures !OccursAt(s[1..], pat, j) {
        SpliceTail(s, pat, repl, j + 1);
      }
      ReplaceFirstAt(s[1..], pat, repl, i - 1);
    }
  }

  // ---------------------------------------------------------------------
  // Trimming, joining and splitting words.

  /** `s.trimStart()`. */
  function TrimStart(s: string): (r: string)
    ensures |r| <= |s| && r == s[|s| - |r|..]
    ensures r != [] ==> !IsWhitespace(r[0])
    decreases |s|
  {
    if s != [] && IsWhitespace(s[0]) then TrimStart(s[1..]) else s
  }

  /** `s.trimEnd()`. */
  function TrimEnd(s: string): (r: string)
    ensures |r| <= |s| && r == s[..|r|]
    ensures r != [] ==> !IsWhitespace(r[|r| - 1])
    decreases |s|
  {
    if s != [] && IsWhitespace(s[|s| - 1]) then TrimEnd(s[..|s| - 1]) else s
  }

  /** `s.trim()`. */
  function Trim(s: string): string {
    TrimEnd(TrimStart(s))
  }

  /** A word: at least one character and no whitespace. */
  predicate IsWord(w: string) {
    w != [] && forall i :: 0 <= i < |w| ==> !IsWhitespace(w[i])
  }

  predicate AllWords(ws: seq<string>) {
    forall i :: 0 <= i < |ws| ==> IsWord(ws[i])
  }

  /** `ws.join(' ')`. */
  function JoinWords(ws: seq<string>): string {
    if ws == [] then "" else if |ws| == 1 then ws[0] else ws[0] + " " + JoinWords(ws[1..])
  }

  /** Every word followed by one space, as repeated `result += w + " "` builds it. */
  function Spaced(ws: seq<string>): string {
    if ws == [] then "" else ws[0] + " " + Spaced(ws[1..])
  }

  /** The whitespace-separated words of `s`, continuing a word `cur` already begun. */
  function WordsFrom(s: string, cur: string): seq<string>
    decreases |s|
  {
    if s == [] then (if cur == [] then [] else [cur])
    else if IsWhitespace(s[0]) then (if cur == [] then [] else [cur]) + WordsFrom(s[1..], [])
    else WordsFrom(s[1..], cur + [s[0]])
  }

  /** `s.split(/\s+/).filter(w => w !== '')`: runs of whitespace of any length separate words. */
  function Words(s: string): seq<string> {
    WordsFrom(s, [])
  }

  /** A string that starts and ends with a non-space character is its own trim. */
  lemma TrimOfTrimmed(s: string)
    requires s != [] && !IsWhitespace(s[0]) && !IsWhitespace(s[|s| - 1])
    ensures Trim(s) == s
  {
  }

  /** A string framed by non-space characters at both ends is its own trim. */
  lemma TrimFramed(pre: string, post: string)
    requires pre != [] && !IsWhitespace(pre[0])
    requires post != [] && !IsWhitespace(post[|post| - 1])
    ensures Trim(pre + post) == pre + post
  {
    var s := pre + post;
    assert s[0] == pre[0] && s[|s| - 1] == post[|post| - 1];
    TrimOfTrimmed(s);
  }

  /** Joined words start and end with a non-space character. */
  lemma {:induction false} JoinedEnds(ws: seq<string>)
    requires ws != [] && AllWords(ws)
    ensures var j := JoinWords(ws);
      j != [] && j[0] == ws[0][0] && j[|j| - 1] == ws[|ws| - 1][|ws[|ws| - 1]| - 1]
  {
    if |ws| > 1 {
      var rest := ws[1..];
      assert AllWords(rest) by {
        forall i | 0 <= i < |rest| ensures IsWord(rest[i]) {
          assert rest[i] == ws[i + 1];
        }
      }
      JoinedEnds(rest);
      assert IsWord(ws[0]);
      var t := JoinWords(rest);
      var j := ws[0] + " " + t;
      assert JoinWords(ws) == j;
      assert j[0] == ws[0][0];
      assert j[|j| - 1] == t[|t| - 1];
      assert rest[|rest| - 1] == ws[|ws| - 1];
    } else {
      assert IsWord(ws[0]);
    }
  }

  lemma {:induction false} SpacedIsJoinedPlusSpace(ws: seq<string>)
    requires ws != []
    ensures Spaced(ws) == JoinWords(ws) + " "
  {
    if |ws| > 1 {
      SpacedIsJoinedPlusSpace(ws[1..]);
    } else {
      assert Spaced(ws[1..]) == "";
    }
  }

  /** Trimming words each followed by a space gives the words joined by single spaces. */
  lemma TrimSpaced(ws: seq<string>)
    requires AllWords(ws)
    ensures Trim(Spaced(ws)) == JoinWords(ws)
  {
    if ws != [] {
      SpacedIsJoinedPlusSpace(ws);
      JoinedEnds(ws);
      var j := JoinWords(ws);
      assert TrimStart(j + " ") == j + " ";
      assert (j + " ")[..|j|] == j;
      assert TrimEnd(j + " ") == TrimEnd(j);
    }
  }

  /** Characters that are not whitespace extend the current word. */
  lemma {:induction false} WordsFromWordChars(w: string, rest: string, cur: string)
    requires forall i :: 0 <= i < |w| ==> !IsWhitespace(w[i])
    ensures WordsFrom(w + rest, cur) == WordsFrom(rest, cur + w)
  {
    if w != [] {
      assert (w + rest)[1..] == w[1..] + rest;
      WordsFromWordChars(w[1..], rest, cur + [w[0]]);
      assert cur + [w[0]] + w[1..] == cur + w;
    } else {
      assert w + rest == rest;
      assert cur + w == cur;
    }
  }

  /** A boundary at whitespace splits the word list. */
  lemma {:induction false} WordsFromAppend(a: string, b: string, cur: string)
    requires a != [] && IsWhitespace(a[|a| - 1])
    ensures WordsFrom(a + b, cur) == WordsFrom(a, cur) + Words(b)
    decreases |a|
  {
    assert (a + b)[1..] == a[1..] + b;
    if |a| == 1 {
      assert a[1..] + b == b;
    } else if IsWhitespace(a[0]) {
      WordsFromAppend(a[1..], b, []);
    } else {
      WordsFromAppend(a[1..], b, cur + [a[0]]);
    }
  }

  /** The words of a concatenation whose first part ends in whitespace. */
  lemma WordsAppend(a: string, b: string)
    requires a == [] || IsWhitespace(a[|a| - 1])
    ensures Words(a + b) == Words(a) + Words(b)
  {
    if a == [] {
      assert a + b == b;
    } else {
      WordsFromAppend(a, b, []);
    }
  }

  /** A word on its own is that one word. */
  lemma SingleWord(w: string)
    requires IsWord(w)
    ensures Words(w) == [w]
  {
    WordsFromWordChars(w, "", []);
    assert w + "" == w && [] + w == w;
  }

  /** Regrouping a five-part concatenation to the right. */
  lemma Concat5(a: string, b: string, c: string, d: string, e: string)
    ensures a + b + c + d + e == a + (b + (c + (d + e)))
  {
  }

  predicate EndsInSpace(s: string) {
    s == [] || IsWhitespace(s[|s| - 1])
  }

  /** After a string that ends in a space, `tail` is preceded by that space. */
  lemma SpaceBefore(head: string, tail: string)
    requires head != [] && head[|head| - 1] == ' '
    ensures (head + tail)[|head| - 1..] == " " + tail
  {
  }

  /** Four leading parts that each end in whitespace split the words of a concatenation. */
  lemma WordsOfParts(a: string, b: string, c: string, d: string, e: string)
    requires EndsInSpace(a) && EndsInSpace(b) && EndsInSpace(c) && EndsInSpace(d)
    ensures Words(a + b + c + d + e) == Words(a) + (Words(b) + (Words(c) + (Words(d) + Words(e))))
  {
    Concat5(a, b, c, d, e);
    WordsAppend(d, e);
    WordsAppend(c, d + e);
    WordsAppend(b, c + (d + e));
    WordsAppend(a, b + (c + (d + e)));
  }

  /** A word followed by a space is that one word. */
  lemma WordThenSpace(w: string)
    requires IsWord(w)
    ensures Words(w + " ") == [w]
  {
    WordsFromWordChars(w, " ", []);
    assert [] + w == w;
  }

  lemma {:induction false} SpacedAppend(a: seq<string>, b: seq<string>)
    ensures Spaced(a + b) == Spaced(a) + Spaced(b)
  {
    if a == [] {
      assert a + b == b;
    } else {
      assert (a + b)[1..] == a[1..] + b;
      SpacedAppend(a[1..], b);
    }
  }

  /** The words of a spaced list are the list itself. */
  lemma {:induction false} WordsOfSpaced(ws: seq<string>)
    requires AllWords(ws)
    ensures Words(Spaced(ws)) == ws
  {
    if ws != [] {
      WordsOfSpaced(ws[1..]);
      WordThenSpace(ws[0]);
      WordsAppend(ws[0] + " ", Spaced(ws[1..]));
    }
  }

  /** A trailing space adds no word. */
  lemma {:induction false} TrailingSpace(s: string, cur: string)
    ensures WordsFrom(s + " ", cur) == WordsFrom(s, cur)
    decreases |s|
  {
    if s != [] {
      assert (s + " ")[1..] == s[1..] + " ";
      if IsWhitespace(s[0]) {
        TrailingSpace(s[1..], []);
      } else {
        TrailingSpace(s[1..], cur + [s[0]]);
      }
    } else {
      assert WordsFrom(" ", cur) == (if cur == [] then [] else [cur]) + WordsFrom([], []);
    }
  }

  /** The words of a list joined by single spaces are the list itself. */
  lemma WordsOfJoined(ws: seq<string>)
    requires AllWords(ws)
    ensures Words(JoinWords(ws)) == ws
  {
    if ws != [] {
      SpacedIsJoinedPlusSpace(ws);
      WordsOfSpaced(ws);
      TrailingSpace(JoinWords(ws), []);
    }
  }
}
