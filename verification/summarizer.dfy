/** The text logic of `summarizeThread` (worker.js:74-116) without the call to
    the language model, whose output is an input here: Slack markup stripping,
    the deterministic fallback, and the `TITLE:` / `DESCRIPTION:` overrides. */
module Summarizer {
  import opened Wrappers
  import opened Text

  const MaxCleanLength: nat := 1200
  const MaxTitleLength: nat := 80

  // ---------------------------------------------------------------------
  // Markup stripping: `.replace(/D([^D]+)D/g, '$1')` for D in * _ ~ `

  /** One global replacement pass: scanning left to right, a delimiter d that
      is followed by a non-empty run free of d and then another d is replaced,
      with its partner, by the run; the scan resumes after the partner.
      A d with no usable partner is kept and the scan moves one character on. */
  function StripPass(d: char, s: string): (r: string)
    ensures |r| <= |s|
    decreases |s|
  {
    if s == [] then []
    else if s[0] == d then
      var k := FirstIndex(s[1..], d);
      if 0 < k < |s| - 1 then s[1..k + 1] + StripPass(d, s[k + 2..])
      else [s[0]] + StripPass(d, s[1..])
    else [s[0]] + StripPass(d, s[1..])
  }

  /** The four passes in the order worker.js chains them. Stripping never
      lengthens the text. */
  function StripMarkup(s: string): (r: string)
    ensures |r| <= |s|
  {
    StripPass('`', StripPass('~', StripPass('_', StripPass('*', s))))
  }

  /** `cleanText`: stripped markup, cut to 1200 characters: the stripped
      text whole when it fits, and its first 1200 characters otherwise. */
  function Clean(messageText: string): (r: string)
    ensures |r| == Min(|StripMarkup(messageText)|, MaxCleanLength)
    ensures r <= StripMarkup(messageText)
  {
    Truncate(StripMarkup(messageText), MaxCleanLength)
  }

  /** s without the characters in D. */
  function Without(s: string, D: set<char>): string {
    if s == [] then [] else (if s[0] in D then [] else [s[0]]) + Without(s[1..], D)
  }

  lemma {:induction false} WithoutConcat(a: string, b: string, D: set<char>)
    ensures Without(a + b, D) == Without(a, D) + Without(b, D)
  {
    if a != [] {
      assert (a + b)[1..] == a[1..] + b;
      WithoutConcat(a[1..], b, D);
    } else {
      assert a + b == b;
    }
  }

  /** A pass deletes delimiters and nothing else: every other character
      survives, in order. */
  lemma {:induction false} StripPassKeeps(d: char, s: string, D: set<char>)
    requires d in D
    ensures Without(StripPass(d, s), D) == Without(s, D)
    decreases |s|
  {
    if s != [] {
      var k := FirstIndex(s[1..], d);
      if s[0] == d && 0 < k < |s| - 1 {
        var inner, rest := s[1..k + 1], s[k + 2..];
        WithoutSpan(d, s, k, D);
        WithoutConcat(inner, StripPass(d, rest), D);
        StripPassKeeps(d, rest, D);
      } else {
        WithoutHead(s, D);
        WithoutHead([s[0]] + StripPass(d, s[1..]), D);
        StripPassKeeps(d, s[1..], D);
      }
    }
  }

  /** A delimited span loses its two delimiters. */
  lemma WithoutSpan(d: char, s: string, k: nat, D: set<char>)
    requires d in D && 0 < k < |s| - 1 && s[0] == d && s[k + 1] == d
    ensures Without(s, D) == Without(s[1..k + 1], D) + Without(s[k + 2..], D)
  {
    var inner, rest := s[1..k + 1], s[k + 2..];
    assert s == [d] + inner + [d] + rest;
    WithoutConcat([d] + inner + [d], rest, D);
    WithoutConcat([d] + inner, [d], D);
    WithoutConcat([d], inner, D);
  }

  /** Without, one character at a time. */
  lemma WithoutHead(s: string, D: set<char>)
    requires s != []
    ensures Without(s, D) == Without([s[0]], D) + Without(s[1..], D)
  {
    assert s == [s[0]] + s[1..];
    WithoutConcat([s[0]], s[1..], D);
  }

  const Markers: set<char> := {'*', '_', '~', '`'}

  /** Stripping removes only the four markup characters: all other text is
      kept in order. */
  lemma StripMarkupKeeps(s: string)
    ensures Without(StripMarkup(s), Markers) == Without(s, Markers)
  {
    var a := StripPass('*', s);
    var b := StripPass('_', a);
    var c := StripPass('~', b);
    StripPassKeeps('*', s, Markers);
    StripPassKeeps('_', a, Markers);
    StripPassKeeps('~', b, Markers);
    StripPassKeeps('`', c, Markers);
  }

  /** Text free of the delimiter passes through unchanged. */
  lemma {:induction false} StripPassPlain(d: char, p: string, t: string)
    requires d !in p
    ensures StripPass(d, p + t) == p + StripPass(d, t)
  {
    if p != [] {
      assert (p + t)[0] == p[0] && (p + t)[1..] == p[1..] + t;
      StripPassPlain(d, p[1..], t);
    } else {
      assert p + t == t;
    }
  }

  /** A delimiter with no partner after it is kept, with the rest. */
  lemma StripPassLone(d: char, t: string)
    requires d !in t
    ensures StripPass(d, [d] + t) == [d] + t
  {
    var s := [d] + t;
    assert s[1..] == t;
    StripPassPlain(d, t, []);
    assert t + [] == t;
  }

  /** Two delimiters in a row do not pair up, since the run between them
      must be non-empty: the first is kept and the scan resumes at the
      second. */
  lemma StripPassDouble(d: char, t: string)
    ensures StripPass(d, [d, d] + t) == [d] + StripPass(d, [d] + t)
  {
    var s := [d, d] + t;
    assert s[1..] == [d] + t;
  }

  /** The first d is where it is known to be. */
  lemma {:induction false} FirstIndexAt(s: string, d: char, j: nat)
    requires j < |s| && s[j] == d && d !in s[..j]
    ensures FirstIndex(s, d) == j
  {
    if j > 0 {
      assert s[0] == s[..j][0];
      assert s[1..][..j - 1] == s[..j][1..];
      FirstIndexAt(s[1..], d, j - 1);
    }
  }

  /** A delimited span `d x d` with x non-empty and free of d becomes x. */
  lemma StripPassSpan(d: char, x: string, t: string)
    requires x != [] && d !in x
    ensures StripPass(d, [d] + x + [d] + t) == x + StripPass(d, t)
  {
    var s := [d] + x + [d] + t;
    var tail := s[1..];
    assert tail == x + [d] + t;
    assert tail[..|x|] == x;
    FirstIndexAt(tail, d, |x|);
    assert s[1..|x| + 1] == x;
    assert s[|x| + 2..] == t;
  }

  /** A pass over text holding one delimited span, at the start. */
  lemma LeadingSpan(d: char, x: string, t: string)
    requires x != [] && d !in x && d !in t
    ensures StripPass(d, [d] + x + [d] + t) == x + t
  {
    StripPassSpan(d, x, t);
    StripPassPlain(d, t, []);
    assert t + [] == t;
  }

  /** A pass over text holding one delimited span after plain text p. */
  lemma OneSpan(d: char, p: string, x: string, t: string)
    requires d !in p && x != [] && d !in x && d !in t
    ensures StripPass(d, p + ([d] + x + [d] + t)) == p + (x + t)
  {
    StripPassPlain(d, p, [d] + x + [d] + t);
    LeadingSpan(d, x, t);
  }

  predicate MarkerFree(s: string) {
    '*' !in s && '_' !in s && '~' !in s && '`' !in s
  }

  /** One word of the example: still between its markers, or
      already stripped of them. */
  function Piece(marked: bool, d: char, w: string): string {
    if marked then [d] + w + [d] else w
  }

  /** The example `*bold* _em_ ~strike~ `code`` with its words as
      parameters, after the first `stage` passes. */
  function Example(stage: nat, bold: string, em: string, strike: string, code: string): string {
    var sp: string := " ";
    Piece(stage < 1, '*', bold) + (sp + (Piece(stage < 2, '_', em)
    + (sp + (Piece(stage < 3, '~', strike) + (sp + Piece(stage < 4, '`', code))))))
  }

  predicate Words(bold: string, em: string, strike: string, code: string) {
    bold != [] && em != [] && strike != [] && code != []
    && MarkerFree(bold) && MarkerFree(em) && MarkerFree(strike) && MarkerFree(code)
  }

  lemma ExampleStars(bold: string, em: string, strike: string, code: string)
    requires Words(bold, em, strike, code)
    ensures StripPass('*', Example(0, bold, em, strike, code)) == Example(1, bold, em, strike, code)
  {
    var sp: string := " ";
    var t := sp + (Piece(true, '_', em) + (sp + (Piece(true, '~', strike) + (sp + Piece(true, '`', code)))));
    assert '*' !in t;
    LeadingSpan('*', bold, t);
    assert Piece(true, '*', bold) + t == ['*'] + bold + ['*'] + t;
  }

  lemma ExampleUnderscores(bold: string, em: string, strike: string, code: string)
    requires Words(bold, em, strike, code)
    ensures StripPass('_', Example(1, bold, em, strike, code)) == Example(2, bold, em, strike, code)
  {
    var sp: string := " ";
    var t := sp + (Piece(true, '~', strike) + (sp + Piece(true, '`', code)));
    assert '_' !in t;
    OneSpan('_', bold + sp, em, t);
    assert bold + (sp + (Piece(true, '_', em) + t)) == (bold + sp) + (['_'] + em + ['_'] + t);
    assert bold + (sp + (em + t)) == (bold + sp) + (em + t);
  }

  lemma ExampleTildes(bold: string, em: string, strike: string, code: string)
    requires Words(bold, em, strike, code)
    ensures StripPass('~', Example(2, bold, em, strike, code)) == Example(3, bold, em, strike, code)
  {
    var sp: string := " ";
    var p := bold + (sp + (em + sp));
    var t := sp + Piece(true, '`', code);
    assert '~' !in t && '~' !in p;
    OneSpan('~', p, strike, t);
    assert bold + (sp + (em + (sp + (Piece(true, '~', strike) + t)))) == p + (['~'] + strike + ['~'] + t);
    assert bold + (sp + (em + (sp + (strike + t)))) == p + (strike + t);
  }

  lemma ExampleBackticks(bold: string, em: string, strike: string, code: string)
    requires Words(bold, em, strike, code)
    ensures StripPass('`', Example(3, bold, em, strike, code)) == Example(4, bold, em, strike, code)
  {
    var sp: string := " ";
    var p := bold + (sp + (em + (sp + (strike + sp))));
    var t: string := [];
    assert '`' !in p;
    OneSpan('`', p, code, t);
    assert bold + (sp + (em + (sp + (strike + (sp + Piece(true, '`', code)))))) == p + (['`'] + code + ['`'] + t);
    assert bold + (sp + (em + (sp + (strike + (sp + code))))) == p + (code + t);
  }

  /** The two ends of the example, spelled out. */
  lemma ExampleSpelled(bold: string, em: string, strike: string, code: string)
    ensures Example(0, bold, em, strike, code)
         == "*" + bold + "* _" + em + "_ ~" + strike + "~ `" + code + "`"
    ensures Example(4, bold, em, strike, code) == bold + " " + em + " " + strike + " " + code
  {
    var sp: string := " ";
    assert Example(4, bold, em, strike, code) == bold + (sp + (em + (sp + (strike + (sp + code)))));
    assert Example(0, bold, em, strike, code)
        == (['*'] + bold + ['*']) + (sp + ((['_'] + em + ['_']) + (sp + ((['~'] + strike + ['~']) + (sp + (['`'] + code + ['`']))))));
  }

  /** The four passes of `*bold* _em_ ~strike~ `code`` leave
      `bold em strike code`, for any marker-free words. */
  lemma MarkupExample(bold: string, em: string, strike: string, code: string)
    requires Words(bold, em, strike, code)
    ensures StripMarkup("*" + bold + "* _" + em + "_ ~" + strike + "~ `" + code + "`")
         == bold + " " + em + " " + strike + " " + code
  {
    ExampleSpelled(bold, em, strike, code);
    ExampleStars(bold, em, strike, code);
    ExampleUnderscores(bold, em, strike, code);
    ExampleTildes(bold, em, strike, code);
    ExampleBackticks(bold, em, strike, code);
  }

  // ---------------------------------------------------------------------
  // The two case-insensitive regular expressions over the model's output

  /** Case folding of the non-Unicode `i` flag as it affects the ASCII letters
      of the two patterns: only 'a'..'z' fold onto them. */
  function Upper(c: char): char {
    if 'a' <= c <= 'z' then ((c as int) - 32) as char else c
  }

  /** s with every letter folded to upper case. */
  function UpperAll(s: string): (r: string)
    ensures |r| == |s|
  {
    if s == [] then [] else [Upper(s[0])] + UpperAll(s[1..])
  }

  /** word (upper case) occurs case-insensitively at position i of s. */
  predicate MatchesAt(s: string, i: nat, word: string) {
    i + |word| <= |s| && UpperAll(s[i..i + |word|]) == word
  }

  /** Length of the run of white space starting at q. */
  function SpaceRun(s: string, q: nat): (n: nat)
    requires q <= |s|
    ensures q + n <= |s| && AllSpace(s[q..q + n])
    ensures q + n < |s| ==> !IsSpace(s[q + n])
    decreases |s| - q
  {
    if q < |s| && IsSpace(s[q]) then
      var n := 1 + SpaceRun(s, q + 1);
      assert s[q..q + n] == [s[q]] + s[q + 1..q + n];
      n
    else 0
  }

  /** Length of the run of characters `.` matches, starting at q. */
  function LineRun(s: string, q: nat): (n: nat)
    requires q <= |s|
    ensures q + n <= |s|
    ensures forall j :: q <= j < q + n ==> !IsLineTerminator(s[j])
    ensures q + n < |s| ==> IsLineTerminator(s[q + n])
    decreases |s| - q
  {
    if q < |s| && !IsLineTerminator(s[q]) then 1 + LineRun(s, q + 1) else 0
  }

  /** `(.+?)(?:\n|$)` tried at q: the lazy group can only stop where `.`
      stops matching, so it succeeds exactly when that run is non-empty and
      ends at a line feed or at the end of the output. */
  function TitleTail(s: string, q: nat): (r: Option<string>)
    requires q <= |s|
    ensures r.Some? ==> r.value != [] && forall j :: 0 <= j < |r.value| ==> !IsLineTerminator(r.value[j])
  {
    var n := LineRun(s, q);
    if n >= 1 && (q + n == |s| || s[q + n] == '\n') then Some(s[q..q + n]) else None
  }

  /** The greedy `\s*` after `TITLE:` at p gives back one character at a time,
      from the whole white-space run (w characters) down to none. */
  function TryTitle(s: string, p: nat, w: nat): (r: Option<string>)
    requires p + w <= |s|
    ensures r.Some? ==> r.value != [] && forall j :: 0 <= j < |r.value| ==> !IsLineTerminator(r.value[j])
    decreases w
  {
    match TitleTail(s, p + w)
    case Some(c) => Some(c)
    case None => if w == 0 then None else TryTitle(s, p, w - 1)
  }

  function TitleAt(s: string, i: nat): (r: Option<string>)
    ensures r.Some? ==> r.value != [] && forall j :: 0 <= j < |r.value| ==> !IsLineTerminator(r.value[j])
  {
    if MatchesAt(s, i, "TITLE:") then TryTitle(s, i + 6, SpaceRun(s, i + 6)) else None
  }

  /** The leftmost match at or after i. */
  function TitleFrom(s: string, i: nat): (r: Option<string>)
    ensures r.Some? ==> r.value != [] && forall j :: 0 <= j < |r.value| ==> !IsLineTerminator(r.value[j])
    decreases |s| - i
  {
    if i + 6 > |s| then None
    else match TitleAt(s, i)
      case Some(c) => Some(c)
      case None => TitleFrom(s, i + 1)
  }

  /** `output.match(/TITLE:\s*(.+?)(?:\n|$)/i)?.[1]`: a captured title is
      one non-empty line. */
  function TitleMatch(output: string): (r: Option<string>)
    ensures r.Some? ==> r.value != [] && forall j :: 0 <= j < |r.value| ==> !IsLineTerminator(r.value[j])
  {
    TitleFrom(output, 0)
  }

  /** `[\s\S]+` after the white space: the rest of the output, if any. */
  function DescriptionTail(s: string, q: nat): Option<string>
    requires q <= |s|
  {
    if q < |s| then Some(s[q..]) else None
  }

  function TryDescription(s: string, p: nat, w: nat): Option<string>
    requires p + w <= |s|
    decreases w
  {
    match DescriptionTail(s, p + w)
    case Some(c) => Some(c)
    case None => if w == 0 then None else TryDescription(s, p, w - 1)
  }

  function DescriptionAt(s: string, i: nat): Option<string> {
    if MatchesAt(s, i, "DESCRIPTION:") then TryDescription(s, i + 12, SpaceRun(s, i + 12)) else None
  }

  function DescriptionFrom(s: string, i: nat): Option<string>
    decreases |s| - i
  {
    if i + 12 > |s| then None
    else match DescriptionAt(s, i)
      case Some(c) => Some(c)
      case None => DescriptionFrom(s, i + 1)
  }

  /** `output.match(/DESCRIPTION:\s*([\s\S]+)/i)?.[1]`: a captured
      description is a non-empty tail of the output. */
  function DescriptionMatch(output: string): (r: Option<string>)
    ensures r.Some? ==> r.value != [] && |r.value| <= |output| && r.value == output[|output| - |r.value|..]
  {
    DescriptionFromTail(output, 0);
    DescriptionFrom(output, 0)
  }

  /** Each try of the greedy white space captures a non-empty tail. */
  lemma {:induction false} TryDescriptionTail(s: string, p: nat, w: nat)
    requires p + w <= |s|
    ensures var r := TryDescription(s, p, w);
      r.Some? ==> r.value != [] && |r.value| <= |s| && r.value == s[|s| - |r.value|..]
    decreases w
  {
    if p + w == |s| && w > 0 {
      TryDescriptionTail(s, p, w - 1);
    }
  }

  /** The scan's capture, wherever it is found, is a non-empty tail. */
  lemma {:induction false} DescriptionFromTail(s: string, i: nat)
    ensures var r := DescriptionFrom(s, i);
      r.Some? ==> r.value != [] && |r.value| <= |s| && r.value == s[|s| - |r.value|..]
    decreases |s| - i
  {
    if i + 12 <= |s| {
      if MatchesAt(s, i, "DESCRIPTION:") {
        TryDescriptionTail(s, i + 12, SpaceRun(s, i + 12));
      }
      if DescriptionAt(s, i).None? {
        DescriptionFromTail(s, i + 1);
      }
    }
  }

  lemma {:induction false} UpperAllAt(s: string, j: nat)
    requires j < |s|
    ensures UpperAll(s)[j] == Upper(s[j])
  {
    if j > 0 {
      UpperAllAt(s[1..], j - 1);
    }
  }

  /** Text without lower-case ASCII letters is left alone by case folding. */
  lemma {:induction false} UpperAllFixed(s: string)
    requires forall k :: 0 <= k < |s| ==> !('a' <= s[k] <= 'z')
    ensures UpperAll(s) == s
  {
    if s != [] {
      UpperAllFixed(s[1..]);
    }
  }

  /** Each character of a match folds onto the word's character. */
  lemma MatchesAtChar(s: string, i: nat, word: string, j: nat)
    requires MatchesAt(s, i, word) && j < |word|
    ensures Upper(s[i + j]) == word[j]
  {
    UpperAllAt(s[i..i + |word|], j);
  }

  /** No occurrence of word in s. */
  predicate NoMarker(s: string, word: string) {
    forall k :: 0 <= k < |s| ==> !MatchesAt(s, k, word)
  }

  /** The leftmost occurrence of word in s is at i. */
  predicate FirstMarker(s: string, i: nat, word: string) {
    MatchesAt(s, i, word) && forall k :: 0 <= k < i ==> !MatchesAt(s, k, word)
  }

  /** Every line terminator is white space, so a white-space run stops only
      where `.` can match. */
  lemma LineTerminatorIsSpace(c: char)
    ensures IsLineTerminator(c) ==> IsSpace(c)
  {
  }

  /** A run of `.` characters from j that reaches q goes on as the run from q. */
  lemma {:induction false} LineRunThrough(s: string, j: nat, q: nat)
    requires j <= q <= |s|
    requires forall k :: j <= k < q ==> !IsLineTerminator(s[k])
    ensures LineRun(s, j) == (q - j) + LineRun(s, q)
    decreases q - j
  {
    if j < q {
      LineRunThrough(s, j + 1, q);
    }
  }

  /** The `TITLE:` line at q: the run of `.` from q, ended by `\n` or by the
      end of the output. */
  predicate TitleLineEnds(s: string, q: nat)
    requires q <= |s|
  {
    var n := LineRun(s, q);
    q + n == |s| || s[q + n] == '\n'
  }

  /** When the line after the white space is not properly ended, a capture
      the backtracking `\s*` can still produce is white space only. */
  lemma TitleTailBlank(s: string, p: nat, w: nat, v: nat)
    requires p + w <= |s| && AllSpace(s[p..p + w]) && v <= w
    requires !(p + w < |s| && TitleLineEnds(s, p + w))
    ensures TitleTail(s, p + v).Some? ==> AllSpace(TitleTail(s, p + v).value)
  {
    var q, j := p + w, p + v;
    if v == w {
      assert TitleTail(s, j) == None;
    } else if forall k :: j <= k < q ==> !IsLineTerminator(s[k]) {
      TitleTailThrough(s, p, w, v);
    } else {
      var k :| j <= k < q && IsLineTerminator(s[k]);
      TitleTailStops(s, p, w, v, k);
    }
  }

  /** A `.` run from inside the white space that reaches the line after it
      ends where that line ends. */
  lemma TitleTailThrough(s: string, p: nat, w: nat, v: nat)
    requires p + w <= |s| && AllSpace(s[p..p + w]) && v < w
    requires !(p + w < |s| && TitleLineEnds(s, p + w))
    requires forall k :: p + v <= k < p + w ==> !IsLineTerminator(s[k])
    ensures TitleTail(s, p + v).Some? ==> AllSpace(TitleTail(s, p + v).value)
  {
    var q, j := p + w, p + v;
    LineRunThrough(s, j, q);
    var m := LineRun(s, j);
    if q == |s| {
      assert TitleTail(s, j).Some? ==> TitleTail(s, j).value == s[j..j + m];
      AllSpaceWithin(s, p, p + w, j, j + m);
    } else {
      assert TitleTail(s, j) == None;
    }
  }

  /** A `.` run that a line terminator inside the white space stops is
      white space. */
  lemma TitleTailStops(s: string, p: nat, w: nat, v: nat, k: nat)
    requires p + w <= |s| && AllSpace(s[p..p + w]) && v < w
    requires p + v <= k < p + w && IsLineTerminator(s[k])
    ensures TitleTail(s, p + v).Some? ==> AllSpace(TitleTail(s, p + v).value)
  {
    var j := p + v;
    var m := LineRun(s, j);
    assert j + m <= k;
    assert TitleTail(s, j).Some? ==> TitleTail(s, j).value == s[j..j + m];
    AllSpaceWithin(s, p, p + w, j, j + m);
  }

  lemma {:induction false} TitleBacktrackBlank(s: string, p: nat, w: nat, v: nat)
    requires p + w <= |s| && AllSpace(s[p..p + w]) && v <= w
    requires !(p + w < |s| && TitleLineEnds(s, p + w))
    ensures TryTitle(s, p, v).Some? ==> AllSpace(TryTitle(s, p, v).value)
    decreases v
  {
    TitleTailBlank(s, p, w, v);
    if v > 0 {
      TitleBacktrackBlank(s, p, w, v - 1);
    }
  }

  /** The title a line starting at q provides: the trimmed run of `.`
      characters from q, if a `\n` or the end of the output ends it and it
      is not empty. */
  function LineTitle(s: string, q: nat): Option<string>
    requires q <= |s|
  {
    if q < |s| && !IsSpace(s[q]) && TitleLineEnds(s, q) then Some(Trim(s[q..q + LineRun(s, q)])) else None
  }

  /** The title of the line after a `TITLE:` at i and its white space. */
  function TitleAfter(s: string, i: nat): Option<string>
    requires i + 6 <= |s|
  {
    LineTitle(s, i + 6 + SpaceRun(s, i + 6))
  }

  /** What a `TITLE:` at i yields once blank captures are discarded: the
      title of the line after the marker and its white space. */
  lemma TitleAtUsable(s: string, i: nat)
    requires MatchesAt(s, i, "TITLE:")
    ensures Usable(TitleAt(s, i)) == TitleAfter(s, i)
  {
    TitleAtTries(s, i);
    TryTitleUsable(s, i + 6, SpaceRun(s, i + 6));
  }

  lemma TitleAtTries(s: string, i: nat)
    requires MatchesAt(s, i, "TITLE:")
    ensures TitleAt(s, i) == TryTitle(s, i + 6, SpaceRun(s, i + 6))
  {
  }

  /** The same for `\s*` matching w white-space characters at p. */
  lemma TryTitleUsable(s: string, p: nat, w: nat)
    requires p + w <= |s| && AllSpace(s[p..p + w])
    requires p + w < |s| ==> !IsSpace(s[p + w])
    ensures Usable(TryTitle(s, p, w)) == LineTitle(s, p + w)
  {
    if p + w < |s| && TitleLineEnds(s, p + w) {
      TitleLineCaptured(s, p, w);
    } else {
      TitleLineBlank(s, p, w);
    }
  }

  lemma TitleLineCaptured(s: string, p: nat, w: nat)
    requires p + w < |s| && !IsSpace(s[p + w]) && TitleLineEnds(s, p + w)
    ensures Usable(TryTitle(s, p, w)) == LineTitle(s, p + w)
  {
    var q := p + w;
    LineTerminatorIsSpace(s[q]);
    var n := LineRun(s, q);
    var line := s[q..q + n];
    assert TitleTail(s, q) == Some(line);
    assert line[0] == s[q];
    TrimEmptyIff(line);
  }

  lemma TitleLineBlank(s: string, p: nat, w: nat)
    requires p + w <= |s| && AllSpace(s[p..p + w])
    requires !(p + w < |s| && TitleLineEnds(s, p + w))
    ensures Usable(TryTitle(s, p, w)) == None == LineTitle(s, p + w)
  {
    TitleBacktrackBlank(s, p, w, w);
    match TryTitle(s, p, w)
    case Some(c) => TrimEmptyIff(c);
    case None =>
  }

  /** With no `TITLE:` in [i, j) the leftmost-match scan goes on to j. */
  lemma {:induction false} TitleFromSkip(s: string, i: nat, j: nat)
    requires i <= j
    requires forall k :: i <= k < j ==> !MatchesAt(s, k, "TITLE:")
    ensures TitleFrom(s, i) == TitleFrom(s, j)
    decreases j - i
  {
    if i < j && i + 6 <= |s| {
      TitleFromSkip(s, i + 1, j);
    }
  }

  /** After a `TITLE:` whose white space runs to the end of the output no
      other `TITLE:` can follow. */
  lemma NoTitleAfterBlank(s: string, i: nat)
    requires MatchesAt(s, i, "TITLE:")
    requires i + 6 + SpaceRun(s, i + 6) == |s|
    ensures forall k :: i < k ==> !MatchesAt(s, k, "TITLE:")
  {
    var p := i + 6;
    forall k | i < k && k + 6 <= |s|
      ensures !MatchesAt(s, k, "TITLE:")
    {
      if k >= p {
        AllSpaceWithin(s, p, |s|, k, k + 1);
        assert s[k..k + 1][0] == s[k];
        SpaceIsNoLetter(s[k]);
        MismatchAt(s, k, "TITLE:", 0);
      } else if k == i + 2 {
        MatchesAtChar(s, i, "TITLE:", 3);
        MismatchAt(s, k, "TITLE:", 1);
      } else {
        MatchesAtChar(s, i, "TITLE:", k - i);
        MismatchAt(s, k, "TITLE:", 0);
      }
    }
  }

  /** One character that does not fold onto the word's rules out a match. */
  lemma MismatchAt(s: string, i: nat, word: string, j: nat)
    requires j < |word| && i + |word| <= |s| && Upper(s[i + j]) != word[j]
    ensures !MatchesAt(s, i, word)
  {
    UpperAllAt(s[i..i + |word|], j);
  }

  /** White space is left alone by case folding and is no letter. */
  lemma SpaceIsNoLetter(c: char)
    requires IsSpace(c)
    ensures Upper(c) == c && !('A' <= c <= 'Z')
  {
  }

  /** With no `DESCRIPTION:` in [i, j) the leftmost-match scan goes on to j. */
  lemma {:induction false} DescriptionFromSkip(s: string, i: nat, j: nat)
    requires i <= j
    requires forall k :: i <= k < j ==> !MatchesAt(s, k, "DESCRIPTION:")
    ensures DescriptionFrom(s, i) == DescriptionFrom(s, j)
    decreases j - i
  {
    if i < j && i + 12 <= |s| {
      DescriptionFromSkip(s, i + 1, j);
    }
  }

  /** What `DESCRIPTION:` at i captures trims to the trimmed rest of the
      output after the marker; there is a capture exactly when that rest is
      non-empty. */
  lemma DescriptionAtRest(s: string, i: nat)
    requires MatchesAt(s, i, "DESCRIPTION:")
    ensures DescriptionAt(s, i).Some? <==> i + 12 < |s|
    ensures DescriptionAt(s, i).Some? ==> Trim(DescriptionAt(s, i).value) == Trim(s[i + 12..])
  {
    var p := i + 12;
    var w := SpaceRun(s, p);
    assert DescriptionAt(s, i) == TryDescription(s, p, w);
    if p + w < |s| {
      assert TryDescription(s, p, w) == Some(s[p + w..]);
      var a, b := s[p..p + w], s[p + w..];
      assert s[p..] == a + b;
      TrimSpacePrefix(a, b);
    } else if w > 0 {
      assert TryDescription(s, p, w) == TryDescription(s, p, w - 1);
      assert TryDescription(s, p, w - 1) == Some(s[p + w - 1..]);
      BlankRest(s, p, w);
    } else {
      assert TryDescription(s, p, w) == None;
    }
  }

  /** White space running to the end trims to nothing, from wherever it is
      cut. */
  lemma BlankRest(s: string, p: nat, w: nat)
    requires p + w == |s| && 0 < w && AllSpace(s[p..p + w])
    ensures Trim(s[p + w - 1..]) == [] && Trim(s[p..]) == []
  {
    assert s[p..] == s[p..p + w];
    AllSpaceSlice(s[p..p + w], w - 1, w);
    assert s[p + w - 1..] == s[p..p + w][w - 1..w];
    TrimEmptyIff(s[p..]);
    TrimEmptyIff(s[p + w - 1..]);
  }

  // ---------------------------------------------------------------------
  // The summary

  datatype Summary = Summary(title: string, description: string)

  /** A capture that is still non-empty after `trim()`, trimmed. */
  function Usable(m: Option<string>): (r: Option<string>)
    ensures r.Some? <==> m.Some? && Trim(m.value) != []
    ensures r.Some? ==> r.value == Trim(m.value)
  {
    match m
    case Some(c) => if Trim(c) != [] then Some(Trim(c)) else None
    case None => None
  }

  /** The title used when the model's output gives none: the first line of
      the cleaned text, cut to 80 characters. */
  function FallbackTitle(clean: string): (r: string)
    ensures r <= clean && '\n' !in r
    ensures |r| == Min(|FirstLine(clean)|, MaxTitleLength)
  {
    Truncate(FirstLine(clean), MaxTitleLength)
  }

  /** The summary `summarizeThread` returns for a message and a model output. */
  function Summarize(messageText: string, output: string): (r: Summary)
    ensures |r.title| <= MaxTitleLength
  {
    var clean := Clean(messageText);
    Summary(
      match Usable(TitleMatch(output))
      case Some(t) => Truncate(t, MaxTitleLength)
      case None => FallbackTitle(clean),
      match Usable(DescriptionMatch(output))
      case Some(d) => d
      case None => clean)
  }

  /** Without any `TITLE:` in the output the title is the fallback. */
  lemma NoTitleFallback(messageText: string, output: string)
    requires NoMarker(output, "TITLE:")
    ensures Summarize(messageText, output).title == FallbackTitle(Clean(messageText))
  {
    TitleFromSkip(output, 0, |output|);
  }

  /** The first `TITLE:` decides the title: the trimmed line after it, cut to
      80 characters, when that line is ended by a line feed or by the end of
      the output. */
  lemma TitleOverride(messageText: string, output: string, i: nat)
    requires FirstMarker(output, i, "TITLE:") && TitleAfter(output, i).Some?
    ensures Summarize(messageText, output).title == Truncate(TitleAfter(output, i).value, MaxTitleLength)
  {
    TitleFromSkip(output, 0, i);
    TitleAtUsable(output, i);
  }

  /** A first `TITLE:` followed only by white space leaves the fallback title. */
  lemma BlankTitleFallback(messageText: string, output: string, i: nat)
    requires FirstMarker(output, i, "TITLE:")
    requires i + 6 + SpaceRun(output, i + 6) == |output|
    ensures Summarize(messageText, output).title == FallbackTitle(Clean(messageText))
  {
    TitleFromSkip(output, 0, i);
    TitleAtUsable(output, i);
    NoTitleAfterBlank(output, i);
    TitleFromSkip(output, i + 1, |output|);
  }

  /** Without any `DESCRIPTION:` in the output the description is the whole
      cleaned text. */
  lemma NoDescriptionFallback(messageText: string, output: string)
    requires NoMarker(output, "DESCRIPTION:")
    ensures Summarize(messageText, output).description == Clean(messageText)
  {
    DescriptionFromSkip(output, 0, |output|);
  }

  /** The first `DESCRIPTION:` decides the description: the trimmed rest of
      the output after it, unless that is blank, which leaves the cleaned
      text. */
  lemma DescriptionOverride(messageText: string, output: string, i: nat)
    requires FirstMarker(output, i, "DESCRIPTION:")
    ensures var rest := Trim(output[i + 12..]);
            Summarize(messageText, output).description
            == if rest != [] then rest else Clean(messageText)
  {
    DescriptionFromSkip(output, 0, i);
    DescriptionAtRest(output, i);
    var m := DescriptionAt(output, i);
    assert DescriptionMatch(output) == m;
    if i + 12 == |output| {
      assert output[i + 12..] == [];
      assert m.None?;
    } else {
      assert Usable(m) == if Trim(output[i + 12..]) != [] then Some(Trim(output[i + 12..])) else None;
    }
  }

  /** The output format the prompt asks for, `TITLE: t` on one line and
      `DESCRIPTION:` on the next with the text d below it, gives the trimmed
      t, cut to 80 characters, and the trimmed d. */
  lemma PromptFormat(messageText: string, t: string, d: string)
    requires t != [] && !IsSpace(t[0]) && forall c :: c in t ==> !IsLineTerminator(c)
    requires NoMarker(t, "DESCRIPTION:")
    requires Trim(d) != []
    ensures Summarize(messageText, "TITLE: " + t + "\n" + "DESCRIPTION:" + "\n" + d)
         == Summary(Truncate(Trim(t), MaxTitleLength), Trim(d))
  {
    var output := "TITLE: " + t + "\n" + "DESCRIPTION:" + "\n" + d;
    LayoutOf(t, d);
    FormatTitle(output, t, d);
    FormatDescription(output, t, d);
    FormatDescriptionText(output, t, d);
    Overrides(messageText, output, 0, |t| + 8);
  }

  /** Both overrides at once: the title and the description come from the
      first `TITLE:` and the first `DESCRIPTION:`. */
  lemma Overrides(messageText: string, output: string, i: nat, j: nat)
    requires FirstMarker(output, i, "TITLE:") && TitleAfter(output, i).Some?
    requires FirstMarker(output, j, "DESCRIPTION:") && Trim(output[j + 12..]) != []
    ensures Summarize(messageText, output)
         == Summary(Truncate(TitleAfter(output, i).value, MaxTitleLength), Trim(output[j + 12..]))
  {
    TitleOverride(messageText, output, i);
    DescriptionOverride(messageText, output, j);
  }

  /** Where the pieces of the format sit in the output. */
  predicate Layout(output: string, t: string, d: string) {
    var n := |t|;
    |output| == n + 21 + |d| && output[..7] == "TITLE: " && output[7..n + 7] == t
    && output[n + 7] == '\n' && output[n + 8..n + 20] == "DESCRIPTION:" && output[n + 20] == '\n'
    && output[n + 21..] == d
  }

  /** Where each piece of a concatenation of six sits in it. */
  lemma Pieces(a: string, t: string, b: string, w: string, c: string, d: string)
    ensures var o := a + t + b + w + c + d;
      var i1, i2 := |a|, |a| + |t|;
      var i3, i4 := i2 + |b|, i2 + |b| + |w|;
      |o| == i4 + |c| + |d| && o[..i1] == a && o[i1..i2] == t && o[i2..i3] == b
      && o[i3..i4] == w && o[i4..i4 + |c|] == c && o[i4 + |c|..] == d
  {
  }

  lemma LayoutOf(t: string, d: string)
    ensures Layout("TITLE: " + t + "\n" + "DESCRIPTION:" + "\n" + d, t, d)
  {
    var a, b, w := "TITLE: ", "\n", "DESCRIPTION:";
    Pieces(a, t, b, w, b, d);
    var o := a + t + b + w + b + d;
    var n := |t|;
    assert o[n + 7] == o[n + 7..n + 8][0];
    assert o[n + 20] == o[n + 20..n + 21][0];
  }

  /** In that format the `TITLE:` comes first, followed by one space. */
  lemma FormatTitleMarker(output: string, t: string, d: string)
    requires Layout(output, t, d)
    requires t != [] && !IsSpace(t[0])
    ensures FirstMarker(output, 0, "TITLE:") && SpaceRun(output, 6) == 1
  {
    assert output[0..6] == output[..7][..6] == "TITLE:";
    UpperAllFixed("TITLE:");
    assert output[6] == output[..7][6] == ' ';
    assert output[7] == output[7..|t| + 7][0] == t[0];
    assert SpaceRun(output, 7) == 0;
  }

  /** ... and the line after it is t. */
  lemma FormatTitle(output: string, t: string, d: string)
    requires Layout(output, t, d)
    requires t != [] && !IsSpace(t[0]) && forall c :: c in t ==> !IsLineTerminator(c)
    ensures FirstMarker(output, 0, "TITLE:")
    ensures TitleAfter(output, 0) == Some(Trim(t))
  {
    FormatTitleMarker(output, t, d);
    FormatTitleRun(output, t, d);
    assert output[7] == output[7..|t| + 7][0];
    assert TitleLineEnds(output, 7);
  }

  /** The `.` run after `TITLE: ` is exactly t. */
  lemma FormatTitleRun(output: string, t: string, d: string)
    requires Layout(output, t, d)
    requires forall c :: c in t ==> !IsLineTerminator(c)
    ensures LineRun(output, 7) == |t|
  {
    var n := |t|;
    forall k | 7 <= k < 7 + n
      ensures !IsLineTerminator(output[k])
    {
      assert output[k] == output[7..n + 7][k - 7] == t[k - 7];
    }
    LineRunThrough(output, 7, 7 + n);
  }

  /** In that format the first `DESCRIPTION:` is the one on the second line. */
  lemma FormatDescription(output: string, t: string, d: string)
    requires Layout(output, t, d)
    requires forall c :: c in t ==> !IsLineTerminator(c)
    requires NoMarker(t, "DESCRIPTION:")
    ensures FirstMarker(output, |t| + 8, "DESCRIPTION:")
  {
    var n := |t|;
    SecondLineDescription(output, t, d);
    forall k | 0 <= k < n + 8
      ensures !MatchesAt(output, k, "DESCRIPTION:")
    {
      if k < 7 {
        LabelNoDescription(output, t, d, k);
      } else if k + 12 <= n + 7 {
        InsideNoDescription(output, t, d, k);
      } else {
        NewlineNoDescription(output, t, d, k);
      }
    }
  }

  lemma SecondLineDescription(output: string, t: string, d: string)
    requires Layout(output, t, d)
    ensures MatchesAt(output, |t| + 8, "DESCRIPTION:")
  {
    var n := |t|;
    UpperAllFixed("DESCRIPTION:");
  }

  /** No `DESCRIPTION:` starts inside the `TITLE: ` label. */
  lemma LabelNoDescription(output: string, t: string, d: string, k: nat)
    requires Layout(output, t, d) && k < 7
    ensures !MatchesAt(output, k, "DESCRIPTION:")
  {
    if k + 12 <= |output| {
      assert output[k] == output[..7][k];
      MismatchAt(output, k, "DESCRIPTION:", 0);
    }
  }

  /** One lying wholly inside t would be one in t. */
  lemma InsideNoDescription(output: string, t: string, d: string, k: nat)
    requires Layout(output, t, d) && 7 <= k && k + 12 <= |t| + 7
    requires NoMarker(t, "DESCRIPTION:")
    ensures !MatchesAt(output, k, "DESCRIPTION:")
  {
    var n := |t|;
    SliceOfSlice(output, 7, n + 7, k - 7, k + 5);
    assert !MatchesAt(t, k - 7, "DESCRIPTION:");
  }

  /** One overlapping the line feed after t would need that line feed to be
      part of the word. */
  lemma NewlineNoDescription(output: string, t: string, d: string, k: nat)
    requires Layout(output, t, d) && k <= |t| + 7 < k + 12
    ensures !MatchesAt(output, k, "DESCRIPTION:")
  {
    var n := |t|;
    if k + 12 <= |output| {
      MismatchAt(output, k, "DESCRIPTION:", n + 7 - k);
    }
  }

  /** What follows that `DESCRIPTION:` trims to the trimmed d. */
  lemma FormatDescriptionText(output: string, t: string, d: string)
    requires Layout(output, t, d)
    ensures Trim(output[|t| + 20..]) == Trim(d)
  {
    var n := |t|;
    assert output[n + 20..] == [output[n + 20]] + output[n + 21..];
    assert AllSpace(['\n']);
    TrimSpacePrefix(['\n'], d);
  }

  /** summarizeThread's own steps: the fallback first, then each override
      that has a non-blank capture. */
  method SummarizeThread(messageText: string, output: string) returns (summary: Summary)
    ensures summary == Summarize(messageText, output)
    ensures |summary.title| <= MaxTitleLength
  {
    var cleanText := Clean(messageText);
    var title := Truncate(FirstLine(cleanText), MaxTitleLength);
    var description := cleanText;
    var titleMatch := TitleMatch(output);
    if titleMatch.Some? && Trim(titleMatch.value) != [] {
      title := Truncate(Trim(titleMatch.value), MaxTitleLength);
    }
    var descMatch := DescriptionMatch(output);
    if descMatch.Some? && Trim(descMatch.value) != [] {
      description := Trim(descMatch.value);
    }
    summary := Summary(title, description);
  }
}
