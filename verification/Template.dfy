/** preprocessTemplate and rewriteAction of pkg/engine/template.go: the quote-aware rewriting of the
    actions of a template. */
module Template {
  import opened Basics
  import opened Rewriting

  // The segments of an action

  /** A quoted literal with its quotes, or code between literals. */
  datatype Segment = Literal(text: string) | Code(text: string)

  predicate IsQuote(c: char) {
    c == '"' || c == '`'
  }

  /** How much of s, which follows an opening quote q, belongs to the literal: up to the closing
      quote, or everything when there is none. A backslash in a "-literal takes the next character
      with it. */
  function LiteralTail(s: string, q: char): (n: nat)
    ensures n <= |s|
    decreases |s|
  {
    if s == "" then 0
    else if s[0] == q then 1
    else if q == '"' && s[0] == '\\' then (if |s| == 1 then 1 else 2 + LiteralTail(s[2..], q))
    else 1 + LiteralTail(s[1..], q)
  }

  function CodeLength(s: string): (n: nat)
    ensures n <= |s|
    ensures forall k :: 0 <= k < n ==> !IsQuote(s[k])
    ensures n < |s| ==> IsQuote(s[n])
    decreases |s|
  {
    if s == "" || IsQuote(s[0]) then 0 else 1 + CodeLength(s[1..])
  }

  function Segments(s: string): seq<Segment>
    decreases |s|
  {
    if s == "" then []
    else if IsQuote(s[0]) then
      var n := 1 + LiteralTail(s[1..], s[0]);
      [Literal(s[..n])] + Segments(s[n..])
    else
      var n := CodeLength(s);
      [Code(s[..n])] + Segments(s[n..])
  }

  function TextOf(segments: seq<Segment>): string {
    if segments == [] then "" else segments[0].text + TextOf(segments[1..])
  }

  function RewriteSegment(segment: Segment): Segment {
    match segment
    case Literal(_) => segment
    case Code(text) => Code(RewriteCode(text))
  }

  function RewriteSegments(segments: seq<Segment>): (r: seq<Segment>)
    ensures |r| == |segments|
  {
    if segments == [] then [] else [RewriteSegment(segments[0])] + RewriteSegments(segments[1..])
  }

  /** The specification of rewriteAction: rewrite the code segments and nothing else. */
  function ActionText(s: string): string {
    TextOf(RewriteSegments(Segments(s)))
  }

  lemma ActionTextStep(s: string)
    requires s != ""
    ensures var n := if IsQuote(s[0]) then 1 + LiteralTail(s[1..], s[0]) else CodeLength(s);
            0 < n <= |s|
            && ActionText(s) == (if IsQuote(s[0]) then s[..n] else RewriteCode(s[..n])) + ActionText(s[n..])
  {
    var segments := Segments(s);
    assert RewriteSegments(segments)[0] == RewriteSegment(segments[0]);
    assert RewriteSegments(segments)[1..] == RewriteSegments(segments[1..]);
  }

  lemma SlicesOfSuffix(content: string, i: nat, j: nat)
    requires i <= j <= |content|
    ensures content[i..][..j - i] == content[i..j] && content[i..][j - i..] == content[j..]
  {
  }

  lemma ActionTextAt(content: string, i: nat, j: nat)
    requires i < |content|
    requires j == i + if IsQuote(content[i]) then 1 + LiteralTail(content[i..][1..], content[i]) else CodeLength(content[i..])
    ensures i < j <= |content|
    ensures ActionText(content[i..]) ==
            (if IsQuote(content[i]) then content[i..j] else RewriteCode(content[i..j])) + ActionText(content[j..])
  {
    ActionTextStep(content[i..]);
    SlicesOfSuffix(content, i, j);
  }

  /** rewriteAction. The index jumps over escaped characters and is cut back to the length. */
  method RewriteAction(content: string) returns (out: string)
    ensures out == ActionText(content)
  {
    out := "";
    var i := 0;
    while i < |content|
      invariant 0 <= i <= |content|
      invariant out + ActionText(content[i..]) == ActionText(content)
    {
      var j: nat;
      var piece;
      if IsQuote(content[i]) {
        j := EndOfLiteral(content, i);
        piece := content[i..j];
      } else {
        j := EndOfCode(content, i);
        piece := RewriteCode(content[i..j]);
      }
      ActionTextAt(content, i, j);
      Associative(out, piece, ActionText(content[j..]));
      out := out + piece;
      i := j;
    }
  }

  method EndOfLiteral(content: string, i: nat) returns (j: nat)
    requires i < |content| && IsQuote(content[i])
    ensures i < j <= |content| && j == i + 1 + LiteralTail(content[i..][1..], content[i])
  {
    var c := content[i];
    j := i + 1;
    assert content[i..][1..] == content[j..];
    ghost var length := LiteralTail(content[i + 1..], c);
    while j < |content| && content[j] != c
      invariant i + 1 <= j <= |content| + 1
      invariant if j <= |content| then (j - i - 1) + LiteralTail(content[j..], c) == length
                else length == |content| - i - 1
      decreases |content| + 1 - j
    {
      assert content[j..][1..] == content[j + 1..];
      if c == '"' && content[j] == '\\' {
        if j + 2 <= |content| {
          assert content[j..][2..] == content[j + 2..];
        }
        j := j + 1;
      }
      j := j + 1;
    }
    if j < |content| {
      j := j + 1;
    }
    if j > |content| {
      j := |content|;
    }
  }

  method EndOfCode(content: string, i: nat) returns (j: nat)
    requires i < |content| && !IsQuote(content[i])
    ensures i < j <= |content| && j == i + CodeLength(content[i..])
  {
    j := i;
    while j < |content| && content[j] != '"' && content[j] != '`'
      invariant i <= j <= |content| && (j - i) + CodeLength(content[j..]) == CodeLength(content[i..])
    {
      assert content[j..][1..] == content[j + 1..];
      j := j + 1;
    }
  }

  // Segmentation is stable

  lemma {:induction false} SegmentsText(s: string)
    ensures TextOf(Segments(s)) == s
    decreases |s|
  {
    if s != "" {
      var n := if IsQuote(s[0]) then 1 + LiteralTail(s[1..], s[0]) else CodeLength(s);
      SegmentsText(s[n..]);
      assert s == s[..n] + s[n..];
    }
  }

  /** u is a literal's text behind its opening quote, up to its closing one. */
  predicate Closes(u: string, q: char)
    decreases |u|
  {
    u != "" &&
    if u[0] == q then |u| == 1
    else if q == '"' && u[0] == '\\' then |u| >= 2 && Closes(u[2..], q)
    else Closes(u[1..], q)
  }

  lemma {:induction false} TailClosesOrEnds(s: string, q: char)
    ensures Closes(s[..LiteralTail(s, q)], q) || LiteralTail(s, q) == |s|
    decreases |s|
  {
    if s != "" && s[0] != q {
      var k := if q == '"' && s[0] == '\\' then 2 else 1;
      if k <= |s| {
        TailClosesOrEnds(s[k..], q);
        assert s[..LiteralTail(s, q)][k..] == s[k..][..LiteralTail(s[k..], q)];
      }
    }
  }

  lemma {:induction false} ClosedTail(u: string, v: string, q: char)
    requires Closes(u, q)
    ensures LiteralTail(u + v, q) == |u|
    decreases |u|
  {
    if u[0] != q {
      var k := if q == '"' && u[0] == '\\' then 2 else 1;
      ClosedTail(u[k..], v, q);
      assert (u + v)[k..] == u[k..] + v;
    }
  }

  lemma {:induction false} DottedHasNoQuotes(token: Recognizer, open: bool, s: string)
    requires forall k :: 0 <= k < |s| ==> !IsQuote(s[k])
    ensures forall k :: 0 <= k < |Dotted(token, open, s)| ==> !IsQuote(Dotted(token, open, s)[k])
    ensures |Dotted(token, open, s)| >= |s|
    decreases |s|
  {
    if s != "" {
      DottedHasNoQuotes(token, IsBoundary(s[0]), s[1..]);
    }
  }

  lemma {:induction false} CodeLengthOf(u: string, v: string)
    requires forall k :: 0 <= k < |u| ==> !IsQuote(u[k])
    requires v == "" || IsQuote(v[0])
    ensures CodeLength(u + v) == |u|
    decreases |u|
  {
    if u == "" {
      assert u + v == v;
    } else {
      assert (u + v)[1..] == u[1..] + v;
      CodeLengthOf(u[1..], v);
    }
  }

  lemma FirstOfAction(s: string)
    requires s != "" && IsQuote(s[0])
    ensures ActionText(s) != "" && ActionText(s)[0] == s[0]
  {
    ActionTextStep(s);
  }

  /** Lexing the rewritten action gives the rewritten segments: every literal, with its escapes
      and even when unterminated, is where and what it was. */
  lemma {:induction false} SegmentsAreStable(s: string)
    ensures Segments(ActionText(s)) == RewriteSegments(Segments(s))
    decreases |s|
  {
    if s == "" {
    } else if IsQuote(s[0]) {
      LiteralIsStable(s);
      SegmentsAreStable(s[1 + LiteralTail(s[1..], s[0])..]);
    } else {
      CodeIsStable(s);
      SegmentsAreStable(s[CodeLength(s)..]);
    }
  }

  /** A closed literal, or an unclosed one at the end, is lexed as it stands. */
  lemma LiteralFirst(literal: string, rest: string)
    requires literal != "" && IsQuote(literal[0])
    requires if rest == "" then LiteralTail(literal[1..], literal[0]) == |literal| - 1
             else Closes(literal[1..], literal[0])
    ensures Segments(literal + rest) == [Literal(literal)] + Segments(rest)
  {
    var s := literal + rest;
    assert s[0] == literal[0] && s[1..] == literal[1..] + rest;
    if rest == "" {
      assert s[1..] == literal[1..];
    } else {
      ClosedTail(literal[1..], rest, literal[0]);
    }
    assert s[..|literal|] == literal && s[|literal|..] == rest;
  }

  lemma LiteralIsStable(s: string)
    requires s != "" && IsQuote(s[0])
    ensures var n := 1 + LiteralTail(s[1..], s[0]);
            Segments(ActionText(s)) == [Literal(s[..n])] + Segments(ActionText(s[n..]))
  {
    var n := 1 + LiteralTail(s[1..], s[0]);
    ActionTextStep(s);
    TailClosesOrEnds(s[1..], s[0]);
    assert s[..n][1..] == s[1..][..n - 1];
    if n == |s| {
      assert s[..n] == s && s[n..] == "";
    }
    LiteralFirst(s[..n], ActionText(s[n..]));
  }

  lemma CodeIsStable(s: string)
    requires s != "" && !IsQuote(s[0])
    ensures var n := CodeLength(s);
            Segments(ActionText(s)) == [Code(RewriteCode(s[..n]))] + Segments(ActionText(s[n..]))
  {
    var n := CodeLength(s);
    var code, rest := RewriteCode(s[..n]), ActionText(s[n..]);
    ActionTextStep(s);
    RewriteIsDotted(s[..n]);
    DottedHasNoQuotes(AnyToken, true, s[..n]);
    if s[n..] != "" {
      FirstOfAction(s[n..]);
    }
    CodeLengthOf(code, rest);
    assert (code + rest)[0] == code[0] && (code + rest)[..|code|] == code && (code + rest)[|code|..] == rest;
  }

  lemma {:induction false} RewriteSegmentsTwice(segments: seq<Segment>)
    ensures RewriteSegments(RewriteSegments(segments)) == RewriteSegments(segments)
  {
    if segments != [] {
      var again := RewriteSegments(segments);
      assert again[0] == RewriteSegment(segments[0]) && again[1..] == RewriteSegments(segments[1..]);
      RewriteSegmentsTwice(segments[1..]);
      if segments[0].Code? {
        RewriteIsIdempotent(segments[0].text);
      }
    }
  }

  // Whole templates

  /** Plain text, or an action between "{{" and "}}". */
  datatype Token = Plain(text: string) | Action(segments: seq<Segment>)

  /** The position of the first two adjacent characters c, or the length when there are none. */
  function FindPair(c: char, s: string): (n: nat)
    ensures n == |s| || n + 2 <= |s|
    decreases |s|
  {
    if |s| < 2 then |s|
    else if s[0] == c && s[1] == c then 0
    else 1 + FindPair(c, s[1..])
  }

  lemma {:induction false} PairIsThere(c: char, s: string)
    ensures var n := FindPair(c, s); n < |s| ==> s[n] == c && s[n + 1] == c
    decreases |s|
  {
    if |s| >= 2 && !(s[0] == c && s[1] == c) {
      PairIsThere(c, s[1..]);
    }
  }

  /** Two adjacent characters c, anywhere. */
  ghost predicate HasPair(c: char, s: string) {
    exists k :: 0 <= k < |s| - 1 && s[k] == c && s[k + 1] == c
  }

  /** FindPair finds the first pair if there is one. */
  lemma {:induction false} FirstPair(c: char, s: string)
    ensures var n := FindPair(c, s);
            && (n < |s| <==> HasPair(c, s))
            && forall k :: 0 <= k < n && k < |s| - 1 ==> !(s[k] == c && s[k + 1] == c)
    decreases |s|
  {
    PairIsThere(c, s);
    if |s| >= 2 && !(s[0] == c && s[1] == c) {
      FirstPair(c, s[1..]);
      forall k | 0 <= k < FindPair(c, s) && k < |s| - 1 ensures !(s[k] == c && s[k + 1] == c) {
        if k > 0 {
          assert s[1..][k - 1] == s[k] && s[1..][k] == s[k + 1];
        }
      }
    }
  }

  lemma SplitPair(c: char, s: string)
    ensures var n := FindPair(c, s); n < |s| ==> s == s[..n] + [c, c] + s[n + 2..]
  {
    PairIsThere(c, s);
  }

  /** The leftmost non-greedy matches of \{\{(.*?)\}\} and the text between them. */
  function Lex(s: string): (tokens: seq<Token>)
    ensures tokens != []
    decreases |s|, 1
  {
    var i := FindPair('{', s);
    if i == |s| then [Plain(s)] else LexBehind(s, i, s[i + 2..])
  }

  /** The same when "{{" is at position i, and `inner` is the text behind it. */
  function LexBehind(s: string, i: nat, inner: string): (tokens: seq<Token>)
    requires i <= |s| && |inner| < |s|
    ensures tokens != []
    decreases |s|, 0
  {
    var j := FindPair('}', inner);
    if j == |inner| then [Plain(s)]
    else [Plain(s[..i]), Action(Segments(inner[..j]))] + Lex(inner[j + 2..])
  }

  function TokenText(token: Token): string {
    match token
    case Plain(text) => text
    case Action(segments) => "{{" + TextOf(segments) + "}}"
  }

  function Render(tokens: seq<Token>): string {
    if tokens == [] then "" else TokenText(tokens[0]) + Render(tokens[1..])
  }

  function RewriteTokens(tokens: seq<Token>): (r: seq<Token>)
    ensures |r| == |tokens|
  {
    if tokens == [] then []
    else [if tokens[0].Plain? then tokens[0] else Action(RewriteSegments(tokens[0].segments))] + RewriteTokens(tokens[1..])
  }

  /** The specification of preprocessTemplate: lex, rewrite the code of the actions, render. */
  function Preprocess(s: string): string {
    Render(RewriteTokens(Lex(s)))
  }

  lemma PreprocessMatch(s: string, i: nat, inner: string, j: nat)
    requires i == FindPair('{', s) < |s| && inner == s[i + 2..]
    requires j == FindPair('}', inner) < |inner|
    ensures Preprocess(s) == s[..i] + "{{" + ActionText(inner[..j]) + "}}" + Preprocess(inner[j + 2..])
  {
    LexMatch(s, i, inner, j);
    PreprocessLexed(s, s[..i], Segments(inner[..j]), inner[j + 2..]);
  }

  lemma PreprocessPlain(s: string)
    requires !HasMatch(s)
    ensures Preprocess(s) == s
  {
    LexPlain(s);
    RenderOne(s);
  }

  lemma LexMatch(s: string, i: nat, inner: string, j: nat)
    requires i == FindPair('{', s) < |s| && inner == s[i + 2..]
    requires j == FindPair('}', inner) < |inner|
    ensures Lex(s) == [Plain(s[..i]), Action(Segments(inner[..j]))] + Lex(inner[j + 2..])
  {
    LexFinds(s, i, inner);
    LexBehindMatch(s, i, inner, j);
  }

  lemma LexFinds(s: string, i: nat, inner: string)
    requires i == FindPair('{', s) < |s| && inner == s[i + 2..]
    ensures Lex(s) == LexBehind(s, i, inner)
  {
  }

  lemma LexBehindMatch(s: string, i: nat, inner: string, j: nat)
    requires i <= |s| && |inner| < |s| && j == FindPair('}', inner) < |inner|
    ensures LexBehind(s, i, inner) == [Plain(s[..i]), Action(Segments(inner[..j]))] + Lex(inner[j + 2..])
  {
  }

  lemma LexPlain(s: string)
    requires !HasMatch(s)
    ensures Lex(s) == [Plain(s)]
  {
  }

  lemma PreprocessLexed(s: string, before: string, segments: seq<Segment>, after: string)
    requires Lex(s) == [Plain(before), Action(segments)] + Lex(after)
    ensures Preprocess(s) == before + "{{" + TextOf(RewriteSegments(segments)) + "}}" + Preprocess(after)
  {
    RenderTwo(before, segments, Lex(after));
  }

  lemma RenderOne(s: string)
    ensures Render(RewriteTokens([Plain(s)])) == s
  {
    assert RewriteTokens([Plain(s)]) == [Plain(s)];
  }

  lemma RewriteTwo(before: string, segments: seq<Segment>, rest: seq<Token>)
    ensures RewriteTokens([Plain(before), Action(segments)] + rest) ==
            [Plain(before), Action(RewriteSegments(segments))] + RewriteTokens(rest)
  {
    var tokens := [Plain(before), Action(segments)] + rest;
    assert tokens[1..] == [Action(segments)] + rest && tokens[1..][1..] == rest;
  }

  lemma RenderTwo(before: string, segments: seq<Segment>, rest: seq<Token>)
    ensures Render(RewriteTokens([Plain(before), Action(segments)] + rest)) ==
            before + "{{" + TextOf(RewriteSegments(segments)) + "}}" + Render(RewriteTokens(rest))
  {
    RewriteTwo(before, segments, rest);
    RenderPair(before, RewriteSegments(segments), RewriteTokens(rest));
  }

  /** preprocessTemplate: ReplaceAllStringFunc over the matches, from left to right. */
  method PreprocessTemplate(s: string) returns (out: string)
    ensures out == Preprocess(s)
  {
    out := "";
    var rest := s;
    while true
      invariant out + Preprocess(rest) == Preprocess(s)
      decreases |rest|
    {
      var i := FindPair('{', rest);
      if i == |rest| {
        PreprocessPlain(rest);
        break;
      }
      var inner := rest[i + 2..];
      var j := FindPair('}', inner);
      if j == |inner| {
        PreprocessPlain(rest);
        break;
      }
      PreprocessMatch(rest, i, inner, j);
      var action := RewriteAction(inner[..j]);
      var replaced := rest[..i] + "{{" + action + "}}";
      Associative(out, replaced, Preprocess(inner[j + 2..]));
      out := out + replaced;
      rest := inner[j + 2..];
    }
    out := out + rest;
  }

  // Lexing the rewritten template gives the rewritten tokens

  /** u has no two adjacent characters c, even when one more c follows exactly if `next`. */
  predicate IsFree(c: char, u: string, next: bool) {
    u == "" || (!(u[0] == c && if |u| == 1 then next else u[1] == c) && IsFree(c, u[1..], next))
  }

  lemma {:induction false} FindPairMeaning(c: char, u: string, v: string)
    ensures FindPair(c, u + [c, c] + v) == |u| <==> IsFree(c, u, true)
    decreases |u|
  {
    var s := u + [c, c] + v;
    if u != "" {
      assert s[1..] == u[1..] + [c, c] + v;
      FindPairMeaning(c, u[1..], v);
    }
  }

  lemma {:induction false} FreeConcat(c: char, a: string, b: string, next: bool)
    ensures IsFree(c, a + b, next) <==> IsFree(c, a, if b == "" then next else b[0] == c) && IsFree(c, b, next)
    decreases |a|
  {
    if a == "" {
      assert a + b == b;
    } else {
      assert (a + b)[1..] == a[1..] + b;
      FreeConcat(c, a[1..], b, next);
    }
  }

  lemma {:induction false} FreeIsMonotone(c: char, u: string)
    requires IsFree(c, u, true)
    ensures IsFree(c, u, false)
  {
    if u != "" {
      FreeIsMonotone(c, u[1..]);
    }
  }

  /** Inserted dots never bring braces together. */
  lemma {:induction false} DottedIsFree(open: bool, s: string, next: bool)
    requires IsFree('}', s, next)
    ensures IsFree('}', Dotted(AnyToken, open, s), next)
    ensures s != "" ==> Dotted(AnyToken, open, s) != "" && (Dotted(AnyToken, open, s)[0] == '}' ==> s[0] == '}')
    decreases |s|
  {
    if s != "" {
      var rest := Dotted(AnyToken, IsBoundary(s[0]), s[1..]);
      DottedIsFree(IsBoundary(s[0]), s[1..], next);
      assert ([s[0]] + rest)[1..] == rest;
      assert IsFree('}', [s[0]] + rest, next);
      assert ("." + ([s[0]] + rest))[1..] == [s[0]] + rest;
    }
  }

  lemma {:induction false} ActionIsFree(segments: seq<Segment>)
    requires IsFree('}', TextOf(segments), true)
    ensures IsFree('}', TextOf(RewriteSegments(segments)), true)
    ensures var t, t' := TextOf(segments), TextOf(RewriteSegments(segments));
            (t' == "" <==> t == "") && (t' != "" && t'[0] == '}' ==> t[0] == '}')
  {
    if segments != [] {
      var first, rest := segments[0].text, TextOf(segments[1..]);
      var rest' := TextOf(RewriteSegments(segments[1..]));
      assert RewriteSegments(segments)[1..] == RewriteSegments(segments[1..]);
      FreeConcat('}', first, rest, true);
      ActionIsFree(segments[1..]);
      var next := if rest' == "" then true else rest'[0] == '}';
      if !next && IsFree('}', first, true) {
        FreeIsMonotone('}', first);
      }
      if segments[0].Code? {
        RewriteIsDotted(first);
        DottedIsFree(true, first, next);
        FreeConcat('}', RewriteCode(first), rest', true);
      } else {
        FreeConcat('}', first, rest', true);
      }
    }
  }

  predicate HasMatch(s: string) {
    var i := FindPair('{', s);
    i < |s| && FindPair('}', s[i + 2..]) < |s[i + 2..]|
  }

  /** The first match of the regular expression: the text before it, in it and after it. */
  datatype Match = Match(before: string, content: string, after: string)

  lemma FirstMatchText(s: string) returns (m: Match)
    requires HasMatch(s)
    ensures s == m.before + "{{" + (m.content + "}}" + m.after) && FindPair('{', s) == |m.before|
    ensures FindPair('}', m.content + "}}" + m.after) == |m.content|
    ensures Lex(s) == [Plain(m.before), Action(Segments(m.content))] + Lex(m.after)
  {
    var i := FindPair('{', s);
    var inner := s[i + 2..];
    var j := FindPair('}', inner);
    LexMatch(s, i, inner, j);
    SplitPair('{', s);
    SplitPair('}', inner);
    assert ['{', '{'] == "{{" && ['}', '}'] == "}}";
    m := Match(s[..i], inner[..j], inner[j + 2..]);
  }

  lemma FirstMatch(s: string) returns (m: Match)
    requires HasMatch(s)
    ensures FindPair('{', m.before + "{{" + (m.content + "}}" + m.after)) == |m.before|
    ensures FindPair('}', m.content + "}}" + m.after) == |m.content|
    ensures Lex(s) == [Plain(m.before), Action(Segments(m.content))] + Lex(m.after) && |m.after| < |s|
    ensures Preprocess(s) == m.before + "{{" + ActionText(m.content) + "}}" + Preprocess(m.after)
  {
    m := FirstMatchText(s);
    RenderTwo(m.before, Segments(m.content), Lex(m.after));
  }

  /** Lexing the output gives the same segmentation: the same plain texts and literals, and the
      rewritten code in between. */
  lemma {:induction false} LexIsStable(s: string)
    ensures Lex(Preprocess(s)) == RewriteTokens(Lex(s))
    decreases |s|
  {
    if HasMatch(s) {
      var m := FirstMatch(s);
      var before, content, after := m.before, m.content, m.after;
      LexIsStable(after);
      SegmentsAreStable(content);
      MatchIsStable(before, content, after, Preprocess(after));
      RewriteTwo(before, Segments(content), Lex(after));
    } else {
      PreprocessPlain(s);
      assert RewriteTokens([Plain(s)]) == [Plain(s)];
    }
  }

  /** The match of the regular expression is at the same place after rewriting. */
  lemma MatchIsStable(before: string, content: string, after: string, rest: string)
    requires FindPair('{', before + "{{" + (content + "}}" + after)) == |before|
    requires FindPair('}', content + "}}" + after) == |content|
    ensures Lex(before + "{{" + ActionText(content) + "}}" + rest) ==
            [Plain(before), Action(Segments(ActionText(content)))] + Lex(rest)
  {
    var body := ActionText(content);
    FindPairMeaning('{', before, content + "}}" + after);
    FindPairMeaning('{', before, body + "}}" + rest);
    FindPairMeaning('}', content, after);
    SegmentsText(content);
    ActionIsFree(Segments(content));
    FindPairMeaning('}', body, rest);
    LexAt(before, body, rest);
  }

  lemma LexAt(before: string, body: string, rest: string)
    requires FindPair('{', before + "{{" + (body + "}}" + rest)) == |before|
    requires FindPair('}', body + "}}" + rest) == |body|
    ensures Lex(before + "{{" + body + "}}" + rest) == [Plain(before), Action(Segments(body))] + Lex(rest)
  {
    var inner := body + "}}" + rest;
    var s := before + "{{" + inner;
    assert s == before + "{{" + body + "}}" + rest;
    assert s[..|before|] == before && s[|before| + 2..] == inner;
    assert inner[..|body|] == body && inner[|body| + 2..] == rest;
  }

  lemma {:induction false} RewriteTokensTwice(tokens: seq<Token>)
    ensures RewriteTokens(RewriteTokens(tokens)) == RewriteTokens(tokens)
  {
    if tokens != [] {
      assert RewriteTokens(tokens)[1..] == RewriteTokens(tokens[1..]);
      RewriteTokensTwice(tokens[1..]);
      if tokens[0].Action? {
        RewriteSegmentsTwice(tokens[0].segments);
      }
    }
  }

  /** Preprocessing twice is preprocessing once. */
  lemma PreprocessIsIdempotent(s: string)
    ensures Preprocess(Preprocess(s)) == Preprocess(s)
  {
    LexIsStable(s);
    RewriteTokensTwice(Lex(s));
  }

  // The inserted dots

  function NoMarks(n: nat): seq<bool> {
    seq(n, i => false)
  }

  /** The marks of an action: the references of its code segments. */
  function SegmentMarks(segments: seq<Segment>): seq<bool> {
    if segments == [] then []
    else (if segments[0].Code? then ReferenceMarks(segments[0].text, true) else NoMarks(|segments[0].text|))
         + SegmentMarks(segments[1..])
  }

  function TokenMarks(tokens: seq<Token>): seq<bool> {
    if tokens == [] then []
    else (match tokens[0]
          case Plain(text) => NoMarks(|text|)
          case Action(segments) => NoMarks(2) + SegmentMarks(segments) + NoMarks(2))
         + TokenMarks(tokens[1..])
  }

  lemma {:induction false} SpliceConcat(s: string, t: string, m: seq<bool>, n: seq<bool>)
    requires |s| == |m| && |t| == |n|
    ensures Splice(s + t, m + n) == Splice(s, m) + Splice(t, n)
    decreases |s|
  {
    if s == "" {
      assert s + t == t && m + n == n;
    } else {
      assert (s + t)[1..] == s[1..] + t && (m + n)[1..] == m[1..] + n;
      SpliceConcat(s[1..], t, m[1..], n);
    }
  }

  lemma {:induction false} SpliceNothing(s: string)
    ensures Splice(s, NoMarks(|s|)) == s
  {
    if s != "" {
      SpliceNothing(s[1..]);
      assert NoMarks(|s|)[1..] == NoMarks(|s[1..]|);
    }
  }

  lemma {:induction false} SegmentsAreSpliced(segments: seq<Segment>)
    ensures |SegmentMarks(segments)| == |TextOf(segments)|
    ensures TextOf(RewriteSegments(segments)) == Splice(TextOf(segments), SegmentMarks(segments))
  {
    if segments != [] {
      SegmentsAreSpliced(segments[1..]);
      assert RewriteSegments(segments)[1..] == RewriteSegments(segments[1..]);
      var text := segments[0].text;
      if segments[0].Code? {
        RewriteInsertsExactly(text);
        SpliceConcat(text, TextOf(segments[1..]), ReferenceMarks(text, true), SegmentMarks(segments[1..]));
      } else {
        SpliceNothing(text);
        SpliceConcat(text, TextOf(segments[1..]), NoMarks(|text|), SegmentMarks(segments[1..]));
      }
    }
  }

  /** An action keeps its delimiters. */
  lemma ActionIsSpliced(segments: seq<Segment>)
    ensures var token, rewritten := Action(segments), Action(RewriteSegments(segments));
            var marks := NoMarks(2) + SegmentMarks(segments) + NoMarks(2);
            |marks| == |TokenText(token)| && TokenText(rewritten) == Splice(TokenText(token), marks)
  {
    SegmentsAreSpliced(segments);
    SpliceNothing("{{");
    SpliceNothing("}}");
    SpliceConcat("{{", TextOf(segments), NoMarks(2), SegmentMarks(segments));
    SpliceConcat("{{" + TextOf(segments), "}}", NoMarks(2) + SegmentMarks(segments), NoMarks(2));
  }

  lemma {:induction false} TokensAreSpliced(tokens: seq<Token>)
    ensures |TokenMarks(tokens)| == |Render(tokens)|
    ensures Render(RewriteTokens(tokens)) == Splice(Render(tokens), TokenMarks(tokens))
  {
    if tokens != [] {
      TokensAreSpliced(tokens[1..]);
      assert RewriteTokens(tokens)[1..] == RewriteTokens(tokens[1..]);
      match tokens[0]
      case Plain(text) =>
        SpliceNothing(text);
        SpliceConcat(text, Render(tokens[1..]), NoMarks(|text|), TokenMarks(tokens[1..]));
      case Action(segments) =>
        ActionIsSpliced(segments);
        SpliceConcat(TokenText(tokens[0]), Render(tokens[1..]),
                     NoMarks(2) + SegmentMarks(segments) + NoMarks(2), TokenMarks(tokens[1..]));
    }
  }

  lemma {:induction false} LexRenders(s: string)
    ensures Render(Lex(s)) == s
    decreases |s|
  {
    if HasMatch(s) {
      var m := FirstMatchText(s);
      var before, content, after := m.before, m.content, m.after;
      LexRenders(after);
      SegmentsText(content);
      RenderPair(before, Segments(content), Lex(after));
      Regroup(before, content, after);
    } else {
      assert [Plain(s)][1..] == [];
      assert Render([Plain(s)]) == s + "";
    }
  }

  lemma Regroup(before: string, content: string, after: string)
    ensures before + "{{" + content + "}}" + after == before + "{{" + (content + "}}" + after)
  {
  }

  lemma RenderPair(before: string, segments: seq<Segment>, rest: seq<Token>)
    ensures Render([Plain(before), Action(segments)] + rest) == before + "{{" + TextOf(segments) + "}}" + Render(rest)
  {
    var tokens := [Plain(before), Action(segments)] + rest;
    var tail := [Action(segments)] + rest;
    assert tokens[1..] == tail && tail[1..] == rest;
    GroupAction(before, TextOf(segments), Render(rest));
  }

  lemma GroupAction(before: string, body: string, end: string)
    ensures before + (("{{" + body + "}}") + end) == before + "{{" + body + "}}" + end
  {
  }

  /** Preprocessing inserts a dot before each reference in the code of an action, changes nothing
      else, and can be undone by deleting the inserted dots. */
  lemma PreprocessIsConservative(s: string)
    ensures |TokenMarks(Lex(s))| == |s|
    ensures Preprocess(s) == Splice(s, TokenMarks(Lex(s)))
    ensures Unsplice(Preprocess(s), TokenMarks(Lex(s))) == s
  {
    LexRenders(s);
    TokensAreSpliced(Lex(s));
    UnspliceSplice(s, TokenMarks(Lex(s)));
  }

  // What this means for the code and the literals of an action

  /** No two adjacent characters c in u, nor at the border to one more c. */
  ghost predicate HasNoPair(c: char, u: string) {
    forall k :: 0 <= k < |u| && u[k] == c ==> k + 1 < |u| && u[k + 1] != c
  }

  lemma {:induction false} NoPairIsFree(c: char, u: string)
    requires HasNoPair(c, u)
    ensures IsFree(c, u, true)
  {
    if u != "" {
      forall k | 0 <= k < |u[1..]| && u[1..][k] == c ensures k + 1 < |u[1..]| && u[1..][k + 1] != c {
        assert u[k + 1] == c;
      }
      NoPairIsFree(c, u[1..]);
    }
  }

  /** Preprocessing rewrites what is between the first "{{" and the first "}}" behind it, and goes on
      behind that. */
  lemma FirstActionIsRewritten(before: string, content: string, after: string)
    requires HasNoPair('{', before) && HasNoPair('}', content)
    ensures Preprocess(before + "{{" + content + "}}" + after) ==
            before + "{{" + ActionText(content) + "}}" + Preprocess(after)
  {
    NoPairIsFree('{', before);
    NoPairIsFree('}', content);
    FindPairMeaning('{', before, content + "}}" + after);
    FindPairMeaning('}', content, after);
    LexAt(before, content, after);
    PreprocessLexed(before + "{{" + content + "}}" + after, before, Segments(content), after);
  }

  lemma CodeThen(code: string, rest: string)
    requires code != "" && forall k :: 0 <= k < |code| ==> !IsQuote(code[k])
    requires rest == "" || IsQuote(rest[0])
    ensures ActionText(code + rest) == RewriteCode(code) + ActionText(rest)
  {
    CodeLengthOf(code, rest);
    ActionTextStep(code + rest);
    assert (code + rest)[..|code|] == code && (code + rest)[|code|..] == rest;
  }

  /** Text without "{{" stays as it is, ... */
  lemma NoActionIsKept(s: string)
    requires !HasPair('{', s)
    ensures Preprocess(s) == s
  {
    FirstPair('{', s);
    PreprocessPlain(s);
  }

  /** ... and so does text whose first "{{" has no "}}" behind it. */
  lemma UnclosedIsKept(before: string, rest: string)
    requires HasNoPair('{', before) && !HasPair('}', rest)
    ensures Preprocess(before + "{{" + rest) == before + "{{" + rest
  {
    var s := before + "{{" + rest;
    NoPairIsFree('{', before);
    FindPairMeaning('{', before, rest);
    FirstPair('}', rest);
    assert s[|before| + 2..] == rest;
    PreprocessPlain(s);
  }

  /** In an action, code without quotes is rewritten as a whole ... */
  lemma CodeIsRewritten(code: string)
    requires forall k :: 0 <= k < |code| ==> code[k] != '"' && code[k] != '`'
    ensures ActionText(code) == Splice(code, ReferenceMarks(code, true))
  {
    RewriteInsertsExactly(code);
    if code != "" {
      CodeThen(code, "");
      AppendNothing(code);
      AppendNothing(RewriteCode(code));
    }
  }

  lemma AppendNothing(s: string)
    ensures s + "" == s
  {
  }

  lemma LiteralThen(literal: string, rest: string)
    requires literal != "" && IsQuote(literal[0]) && Closes(literal[1..], literal[0])
    ensures ActionText(literal + rest) == literal + ActionText(rest)
  {
    ClosedTail(literal[1..], "", literal[0]);
    assert literal[1..] + "" == literal[1..];
    LiteralFirst(literal, rest);
    var segments := [Literal(literal)] + Segments(rest);
    assert segments[1..] == Segments(rest);
  }

  /** The text of a literal: no closing quote but behind a backslash, which has no meaning in a
      `-literal. */
  predicate IsLiteralText(text: string, quote: char)
    decreases |text|
  {
    text == "" ||
    if text[0] == '\\' && quote == '"' then |text| >= 2 && IsLiteralText(text[2..], quote)
    else text[0] != quote && IsLiteralText(text[1..], quote)
  }

  lemma {:induction false} LiteralTextCloses(text: string, quote: char)
    requires IsLiteralText(text, quote) && IsQuote(quote)
    ensures Closes(text + [quote], quote)
    decreases |text|
  {
    if text != "" {
      var k := if text[0] == '\\' && quote == '"' then 2 else 1;
      LiteralTextCloses(text[k..], quote);
      assert (text + [quote])[k..] == text[k..] + [quote];
    }
  }

  lemma PrependNothing(s: string)
    ensures "" + s == s
  {
  }

  lemma NothingIsRewritten()
    ensures RewriteCode("") == ""
  {
    RewriteInsertsExactly("");
  }

  lemma CodeBefore(code: string, rest: string)
    requires forall k :: 0 <= k < |code| ==> !IsQuote(code[k])
    requires rest == "" || IsQuote(rest[0])
    ensures ActionText(code + rest) == RewriteCode(code) + ActionText(rest)
  {
    if code == "" {
      NothingIsRewritten();
      PrependNothing(rest);
      PrependNothing(ActionText(rest));
    } else {
      CodeThen(code, rest);
    }
  }

  /** ... and a literal with its escapes is left alone, whatever is in it. */
  lemma LiteralIsKept(code: string, quote: char, text: string, rest: string)
    requires forall k :: 0 <= k < |code| ==> code[k] != '"' && code[k] != '`'
    requires quote == '"' || quote == '`'
    requires IsLiteralText(text, quote)
    ensures ActionText(code + ([quote] + text + [quote] + rest)) ==
            Splice(code, ReferenceMarks(code, true)) + ([quote] + text + [quote] + ActionText(rest))
  {
    var literal := [quote] + text + [quote];
    LiteralTextCloses(text, quote);
    QuotedTail(quote, text);
    LiteralThen(literal, rest);
    CodeBefore(code, literal + rest);
    RewriteInsertsExactly(code);
  }

  /** The text behind a quote that is never closed, a last backslash included. */
  predicate IsOpenText(text: string, quote: char)
    decreases |text|
  {
    text == "" ||
    if text[0] == '\\' && quote == '"' then |text| == 1 || IsOpenText(text[2..], quote)
    else text[0] != quote && IsOpenText(text[1..], quote)
  }

  lemma {:induction false} OpenTail(text: string, quote: char)
    requires IsOpenText(text, quote)
    ensures LiteralTail(text, quote) == |text|
    decreases |text|
  {
    if |text| > 1 && text[0] == '\\' && quote == '"' {
      OpenTail(text[2..], quote);
    } else if text != "" {
      OpenTail(text[1..], quote);
    }
  }

  lemma OpenLiteral(quote: char, text: string)
    requires IsQuote(quote) && IsOpenText(text, quote)
    ensures ActionText([quote] + text) == [quote] + text
  {
    var s := [quote] + text;
    OpenTail(text, quote);
    ActionTextStep(s);
    assert s[1..] == text && s[..|s|] == s && s[|s|..] == "";
    AppendNothing(s);
  }

  /** A literal that is not closed reaches to the end of the action, and is left alone too. */
  lemma UnterminatedIsKept(code: string, quote: char, text: string)
    requires forall k :: 0 <= k < |code| ==> code[k] != '"' && code[k] != '`'
    requires quote == '"' || quote == '`'
    requires IsOpenText(text, quote)
    ensures ActionText(code + ([quote] + text)) == Splice(code, ReferenceMarks(code, true)) + ([quote] + text)
  {
    OpenLiteral(quote, text);
    RewriteInsertsExactly(code);
    CodeBefore(code, [quote] + text);
  }

  lemma QuotedTail(quote: char, text: string)
    ensures var literal := [quote] + text + [quote]; literal[0] == quote && literal[1..] == text + [quote]
  {
  }

  lemma MarkedOnce(n: nat, m: nat, marks: seq<bool>)
    requires |marks| == n + 1 + m && forall p :: 0 <= p < |marks| ==> (marks[p] <==> p == n)
    ensures marks == NoMarks(n) + ([true] + NoMarks(m))
  {
  }

  lemma SpliceFirst(rest: string)
    requires rest != ""
    ensures Splice(rest, [true] + NoMarks(|rest| - 1)) == "." + rest
  {
    var marks := [true] + NoMarks(|rest| - 1);
    assert marks[1..] == NoMarks(|rest[1..]|);
    SpliceNothing(rest[1..]);
    Associative(".", [rest[0]], rest[1..]);
    assert rest == [rest[0]] + rest[1..];
  }

  /** A dot before the rest of a text, and nowhere else. */
  lemma SpliceOnce(before: string, rest: string, marks: seq<bool>)
    requires rest != "" && |marks| == |before + rest|
    requires forall p :: 0 <= p < |marks| ==> (marks[p] <==> p == |before|)
    ensures Splice(before + rest, marks) == before + ("." + rest)
  {
    MarkedOnce(|before|, |rest| - 1, marks);
    SpliceConcat(before, rest, NoMarks(|before|), [true] + NoMarks(|rest| - 1));
    SpliceNothing(before);
    SpliceFirst(rest);
  }

  const REFERENCE := "trigger.amount | json "

  lemma ReferenceText()
    ensures |REFERENCE| == 22 && "trigger." <= REFERENCE
    ensures forall k :: 0 <= k < 22 && REFERENCE[k] in "tshqr" ==> k == 0 || REFERENCE[k - 1] !in " |"
    ensures forall k :: 0 <= k < 22 ==> REFERENCE[k] !in "\t\n\r(," && REFERENCE[k] != 12 as char
  {
    assert REFERENCE[..8] == "trigger.";
  }

  lemma FirstLetter(s: string)
    requires "trigger." <= s || "system." <= s || "headers." <= s || "queue" <= s || "routing_key" <= s
    ensures s != "" && s[0] in "tshqr"
  {
  }

  /** Only position 1 begins a reference. */
  lemma PipedMarks(p: nat)
    requires p < |" " + REFERENCE|
    ensures ReferenceMarks(" " + REFERENCE, true)[p] <==> p == 1
  {
    var code := " " + REFERENCE;
    ReferenceText();
    MarkedExactly(code, p);
    assert code[1..] == REFERENCE;
    assert p > 0 ==> code[p] == REFERENCE[p - 1];
    assert p > 1 ==> code[p - 1] == REFERENCE[p - 2];
    if ReferenceMarks(code, true)[p] {
      FirstLetter(code[p..]);
    }
  }

  lemma PipedAction()
    ensures ActionText(" " + REFERENCE) == " " + ("." + REFERENCE)
  {
    var code := " " + REFERENCE;
    ReferenceText();
    forall p | 0 <= p < |code| ensures ReferenceMarks(code, true)[p] <==> p == 1 {
      PipedMarks(p);
    }
    assert forall k :: 0 <= k < |code| ==> k == 0 || code[k] == REFERENCE[k - 1];
    CodeIsRewritten(code);
    SpliceOnce(" ", REFERENCE, ReferenceMarks(code, true));
  }

  lemma EmptyIsKept()
    ensures Preprocess("") == ""
  {
    RenderOne("");
  }

  lemma NothingAround(content: string)
    ensures "" + "{{" + content + "}}" + "" == "{{" + content + "}}"
  {
  }

  /** A template that is one action. */
  lemma WholeAction(content: string)
    requires HasNoPair('}', content)
    ensures Preprocess("{{" + content + "}}") == "{{" + ActionText(content) + "}}"
  {
    FirstActionIsRewritten("", content, "");
    EmptyIsKept();
    NothingAround(content);
    NothingAround(ActionText(content));
  }

  /** The form that the documentation uses: a reference piped into a helper gets its dot. */
  lemma PipedReference()
    ensures Preprocess("{{ " + "trigger.amount | json " + "}}") == "{{ ." + "trigger.amount | json " + "}}"
  {
    ReferenceText();
    assert HasNoPair('}', " " + REFERENCE);
    PipedAction();
    WholeAction(" " + REFERENCE);
    PipedTexts(REFERENCE);
  }

  lemma PipedTexts(text: string)
    ensures "{{" + (" " + text) + "}}" == "{{ " + text + "}}"
    ensures "{{" + (" " + ("." + text)) + "}}" == "{{ ." + text + "}}"
  {
  }
}
