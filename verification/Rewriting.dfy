/** rewriteCode of pkg/engine/template.go: two regular-expression replacements, and the proof that
    together they insert a dot at exactly the positions where a bare reference begins. */
module Rewriting {

  /** The class [\s(|,] of the expressions. */
  predicate IsBoundary(c: char) {
    c in " \t\n\r(|," || c == 12 as char
  }

  predicate IsWordChar(c: char) {
    'a' <= c <= 'z' || 'A' <= c <= 'Z' || '0' <= c <= '9' || c == '_'
  }

  predicate StartsWith(s: string, word: string) {
    |word| <= |s| && s[..|word|] == word
  }

  /** s begins with the word, and a word boundary follows it. */
  predicate StartsWithWord(s: string, word: string) {
    StartsWith(s, word) && (|s| == |word| || !IsWordChar(s[|word|]))
  }

  /** A recognizer of references: the reference that a text begins with, or the empty string. */
  type Recognizer = string -> string

  /** The group (?:trigger|system|headers)\. of the first expression. */
  function ContextToken(s: string): string {
    if StartsWith(s, "trigger.") then "trigger."
    else if StartsWith(s, "system.") then "system."
    else if StartsWith(s, "headers.") then "headers."
    else ""
  }

  /** The group (queue|routing_key)\b of the second expression. */
  function BareToken(s: string): string {
    if StartsWithWord(s, "queue") then "queue"
    else if StartsWithWord(s, "routing_key") then "routing_key"
    else ""
  }

  function AnyToken(s: string): string {
    if ContextToken(s) != "" then ContextToken(s) else BareToken(s)
  }

  predicate IsPlain(s: string) {
    forall k :: 0 <= k < |s| ==> !IsBoundary(s[k])
  }

  /** References are prefixes without boundary characters, and none begins with a dot. */
  ghost predicate Recognizes(token: Recognizer) {
    forall s :: StartsWith(s, token(s)) && IsPlain(token(s))
                && (s != "" && (s[0] == '.' || IsBoundary(s[0])) ==> token(s) == "")
  }

  lemma HeadOfPrefix(s: string, word: string)
    requires StartsWith(s, word) && word != ""
    ensures s[0] == word[0]
  {
  }

  lemma ContextWords()
    ensures IsPlain("trigger.") && IsPlain("system.") && IsPlain("headers.") && IsPlain("")
  {
  }

  lemma ContextIsRecognized()
    ensures Recognizes(ContextToken)
  {
    ContextWords();
    forall s ensures var t := ContextToken(s);
      && StartsWith(s, t) && (t == "" || t == "trigger." || t == "system." || t == "headers.")
      && (t != "" ==> s[0] == t[0])
    {
      if ContextToken(s) != "" {
        HeadOfPrefix(s, ContextToken(s));
      }
    }
  }

  lemma BareWords()
    ensures IsPlain("queue") && IsPlain("routing_key") && IsPlain("")
  {
  }

  lemma BareIsRecognized()
    ensures Recognizes(BareToken)
  {
    BareWords();
    forall s ensures var t := BareToken(s);
      && StartsWith(s, t) && (t == "" || t == "queue" || t == "routing_key")
      && (t != "" ==> s[0] == t[0])
    {
      if BareToken(s) != "" {
        HeadOfPrefix(s, BareToken(s));
      }
    }
  }

  lemma AnyIsRecognized()
    ensures Recognizes(AnyToken)
  {
    ContextIsRecognized();
    BareIsRecognized();
    forall s ensures AnyToken(s) == ContextToken(s) || AnyToken(s) == BareToken(s) {
    }
  }

  /** ReplaceAllString for (^|[\s(|,])(token) -> ${1}.${2}: scans for the leftmost match, first
      trying the alternative ^ at the start of the text, and goes on behind the match. */
  function ReplaceAll(token: Recognizer, atStart: bool, s: string): string
    decreases |s|
  {
    if s == "" then ""
    else if atStart && 0 < |token(s)| <= |s| then
      "." + token(s) + ReplaceAll(token, false, s[|token(s)|..])
    else if IsBoundary(s[0]) && 0 < |token(s[1..])| <= |s[1..]| then
      [s[0]] + "." + token(s[1..]) + ReplaceAll(token, false, s[1..][|token(s[1..])|..])
    else [s[0]] + ReplaceAll(token, false, s[1..])
  }

  function RewriteCode(code: string): string {
    ReplaceAll(BareToken, true, ReplaceAll(ContextToken, true, code))
  }

  /** The specification: a dot before every reference that begins the text or follows a boundary
      character, and nothing else changed. `open` says that the text begins at such a place. */
  function Dotted(token: Recognizer, open: bool, s: string): string
    decreases |s|
  {
    if s == "" then ""
    else (if open && token(s) != "" then "." else "") + [s[0]] + Dotted(token, IsBoundary(s[0]), s[1..])
  }

  /** No dot goes inside or behind a text without boundary characters. */
  lemma {:induction false} PlainIsCopied(token: Recognizer, u: string, v: string)
    requires IsPlain(u)
    ensures Dotted(token, false, u + v) == u + Dotted(token, false, v)
    decreases |u|
  {
    if u == "" {
      assert u + v == v;
    } else {
      assert (u + v)[1..] == u[1..] + v;
      PlainIsCopied(token, u[1..], v);
    }
  }

  lemma TokenIsCopied(token: Recognizer, s: string)
    requires Recognizes(token) && token(s) != ""
    ensures |token(s)| <= |s|
    ensures Dotted(token, true, s) == "." + token(s) + Dotted(token, false, s[|token(s)|..])
  {
    var t := token(s);
    assert StartsWith(s, t) && IsPlain(t);
    var rest := s[|t|..];
    assert s == t + rest;
    PlainIsCopied(token, t, rest);
    assert Dotted(token, true, s) == "." + Dotted(token, false, s);
  }

  lemma BoundaryThenToken(token: Recognizer, open: bool, s: string)
    requires Recognizes(token) && s != "" && IsBoundary(s[0]) && token(s[1..]) != ""
    ensures |token(s[1..])| <= |s[1..]|
    ensures Dotted(token, open, s) == [s[0]] + "." + token(s[1..]) + Dotted(token, false, s[1..][|token(s[1..])|..])
  {
    TokenIsCopied(token, s[1..]);
    var t := token(s[1..]);
    var rest := Dotted(token, false, s[1..][|t|..]);
    OpenStep(token, open, s);
    assert Dotted(token, false, s) == [s[0]] + Dotted(token, true, s[1..]);
    Regroup(s[0], t, rest);
  }

  lemma Regroup(c: char, t: string, rest: string)
    ensures [c] + ("." + t + rest) == [c] + "." + t + rest
  {
  }

  /** One pass inserts exactly the dots of its specification: no match hides another one. */
  lemma {:induction false} PassIsDotted(token: Recognizer, open: bool, atStart: bool, s: string)
    requires Recognizes(token) && (open == atStart || token(s) == "")
    ensures ReplaceAll(token, atStart, s) == Dotted(token, open, s)
    decreases |s|
  {
    if s == "" {
    } else if atStart && token(s) != "" {
      TokenIsCopied(token, s);
      PassIsDotted(token, false, false, s[|token(s)|..]);
      assert ReplaceAll(token, atStart, s) == "." + token(s) + ReplaceAll(token, false, s[|token(s)|..]);
    } else if IsBoundary(s[0]) && token(s[1..]) != "" {
      BoundaryThenToken(token, open, s);
      PassIsDotted(token, false, false, s[1..][|token(s[1..])|..]);
    } else {
      PassIsDotted(token, IsBoundary(s[0]), false, s[1..]);
      assert Dotted(token, open, s) == [s[0]] + Dotted(token, IsBoundary(s[0]), s[1..]);
    }
  }

  /** A pass neither creates nor destroys a plain word at a place where it puts no dot. */
  lemma {:induction false} WordSurvives(token: Recognizer, s: string, word: string)
    requires IsPlain(word)
    ensures StartsWith(Dotted(token, false, s), word) <==> StartsWith(s, word)
    ensures StartsWith(s, word) ==>
              var t := Dotted(token, false, s);
              (|t| == |word| <==> |s| == |word|) && (|s| > |word| ==> t[|word|] == s[|word|])
    decreases |word|
  {
    var t := Dotted(token, false, s);
    if word == "" || s == "" {
    } else {
      WordSurvives(token, s[1..], word[1..]);
      var rest := Dotted(token, IsBoundary(s[0]), s[1..]);
      assert t == [s[0]] + rest;
      FirstCharDecides(s, word);
      FirstCharDecides(t, word);
      assert t[1..] == rest;
    }
  }

  lemma FirstCharDecides(s: string, word: string)
    requires s != "" && word != ""
    ensures StartsWith(s, word) <==> s[0] == word[0] && StartsWith(s[1..], word[1..])
  {
    assert word == [word[0]] + word[1..];
    if StartsWith(s, word) {
      assert s[..|word|][0] == s[0] && s[..|word|][1..] == s[1..][..|word| - 1];
    }
    if s[0] == word[0] && StartsWith(s[1..], word[1..]) {
      assert s[..|word|] == [s[0]] + s[1..][..|word| - 1];
    }
  }

  /** So the references that begin there are the same before and after a pass. */
  lemma ContextSurvives(token: Recognizer, s: string)
    ensures ContextToken(Dotted(token, false, s)) == ContextToken(s)
  {
    ContextWords();
    PlainWordSurvives(token, s, "trigger.");
    PlainWordSurvives(token, s, "system.");
    PlainWordSurvives(token, s, "headers.");
  }

  lemma PlainWordSurvives(token: Recognizer, s: string, word: string)
    requires IsPlain(word)
    ensures StartsWith(Dotted(token, false, s), word) <==> StartsWith(s, word)
  {
    WordSurvives(token, s, word);
  }

  lemma BareWordSurvives(token: Recognizer, s: string, word: string)
    requires IsPlain(word)
    ensures StartsWithWord(Dotted(token, false, s), word) <==> StartsWithWord(s, word)
  {
    WordSurvives(token, s, word);
  }

  lemma BareSurvives(token: Recognizer, s: string)
    ensures BareToken(Dotted(token, false, s)) == BareToken(s)
  {
    BareWords();
    BareWordSurvives(token, s, "queue");
    BareWordSurvives(token, s, "routing_key");
  }

  /** A dot that was just inserted is no reference and no boundary. */
  lemma BehindDot(first: Recognizer, second: Recognizer, open: bool, s: string)
    requires Recognizes(second) && s != ""
    ensures Dotted(second, open, "." + Dotted(first, false, s)) == "." + Dotted(second, false, Dotted(first, false, s))
  {
    var t := "." + Dotted(first, false, s);
    assert t[1..] == Dotted(first, false, s) && t[0] == '.';
    assert second(t) == "";
  }

  lemma OpenStep(token: Recognizer, open: bool, s: string)
    requires s != ""
    ensures Dotted(token, open, s) == if open && token(s) != "" then "." + Dotted(token, false, s) else Dotted(token, false, s)
  {
  }

  lemma DottedCons(token: Recognizer, c: char, rest: string)
    ensures Dotted(token, false, [c] + rest) == [c] + Dotted(token, IsBoundary(c), rest)
  {
    assert ([c] + rest)[1..] == rest;
  }

  lemma ClosedStep(first: Recognizer, second: Recognizer, c: char, rest: string)
    ensures Dotted(second, false, Dotted(first, false, [c] + rest)) ==
            [c] + Dotted(second, IsBoundary(c), Dotted(first, IsBoundary(c), rest))
  {
    DottedCons(first, c, rest);
    DottedCons(second, c, Dotted(first, IsBoundary(c), rest));
  }

  /** A pass for `second` after a pass for `first` inserts both kinds of dots at once, provided
      the first pass leaves the references of the second one alone. */
  lemma {:induction false} PassesCompose(first: Recognizer, second: Recognizer, both: Recognizer, open: bool, s: string)
    requires Recognizes(second)
    requires forall t :: both(t) == "" <==> first(t) == "" && second(t) == ""
    requires forall t :: second(Dotted(first, false, t)) == second(t)
    ensures Dotted(second, open, Dotted(first, open, s)) == Dotted(both, open, s)
    decreases |s|
  {
    if s != "" {
      PassesCompose(first, second, both, IsBoundary(s[0]), s[1..]);
      assert s == [s[0]] + s[1..];
      ClosedStep(first, second, s[0], s[1..]);
      DottedCons(both, s[0], s[1..]);
      OpenStep(first, open, s);
      OpenStep(both, open, s);
      if open && first(s) != "" {
        BehindDot(first, second, open, s);
      } else {
        assert second(Dotted(first, false, s)) == second(s);
        OpenStep(second, open, Dotted(first, false, s));
      }
    }
  }

  /** The two sequential replacements equal one simultaneous insertion: neither pass creates,
      destroys or hides a match of the other. */
  lemma RewriteIsDotted(code: string)
    ensures RewriteCode(code) == Dotted(AnyToken, true, code)
  {
    ContextIsRecognized();
    BareIsRecognized();
    PassIsDotted(ContextToken, true, true, code);
    PassIsDotted(BareToken, true, true, ReplaceAll(ContextToken, true, code));
    forall t ensures BareToken(Dotted(ContextToken, false, t)) == BareToken(t) {
      BareSurvives(ContextToken, t);
    }
    PassesCompose(ContextToken, BareToken, AnyToken, true, code);
  }

  /** Rewriting rewritten code changes nothing. */
  lemma RewriteIsIdempotent(code: string)
    ensures RewriteCode(RewriteCode(code)) == RewriteCode(code)
  {
    RewriteIsDotted(code);
    RewriteIsDotted(RewriteCode(code));
    AnyIsRecognized();
    forall t ensures AnyToken(Dotted(AnyToken, false, t)) == AnyToken(t) {
      ContextSurvives(AnyToken, t);
      BareSurvives(AnyToken, t);
    }
    PassesCompose(AnyToken, AnyToken, AnyToken, true, code);
  }

  // The inserted dots, position by position

  /** A dot before every marked character. */
  function Splice(s: string, marks: seq<bool>): string
    requires |marks| == |s|
  {
    if s == "" then "" else (if marks[0] then "." else "") + [s[0]] + Splice(s[1..], marks[1..])
  }

  /** Deleting the character before every marked one again. */
  function Unsplice(t: string, marks: seq<bool>): string
    decreases |marks|
  {
    if marks == [] then t
    else if marks[0] && |t| >= 2 then [t[1]] + Unsplice(t[2..], marks[1..])
    else if !marks[0] && |t| >= 1 then [t[0]] + Unsplice(t[1..], marks[1..])
    else t
  }

  lemma {:induction false} UnspliceSplice(s: string, marks: seq<bool>)
    requires |marks| == |s|
    ensures Unsplice(Splice(s, marks), marks) == s
    decreases |s|
  {
    if s != "" {
      UnspliceSplice(s[1..], marks[1..]);
      var t := Splice(s, marks);
      var rest := Splice(s[1..], marks[1..]);
      if marks[0] {
        assert t == ['.', s[0]] + rest && t[2..] == rest;
      } else {
        assert t == [s[0]] + rest && t[1..] == rest;
      }
      assert s == [s[0]] + s[1..];
    }
  }

  /** Position p starts the text or follows a boundary character, and a reference begins there. */
  predicate IsReference(s: string, open: bool, p: nat)
    requires p < |s|
  {
    (if p == 0 then open else IsBoundary(s[p - 1])) && AnyToken(s[p..]) != ""
  }

  function ReferenceMarks(s: string, open: bool): seq<bool> {
    seq(|s|, p requires 0 <= p < |s| => IsReference(s, open, p))
  }

  lemma {:induction false} DottedIsSplice(s: string, open: bool)
    ensures Dotted(AnyToken, open, s) == Splice(s, ReferenceMarks(s, open))
    decreases |s|
  {
    if s != "" {
      DottedIsSplice(s[1..], IsBoundary(s[0]));
      var marks, rest := ReferenceMarks(s, open), ReferenceMarks(s[1..], IsBoundary(s[0]));
      forall p | 0 <= p < |rest| ensures marks[1..][p] == rest[p] {
        assert s[1..][p..] == s[p + 1..];
      }
      assert marks[1..] == rest;
      assert s[0..] == s;
    }
  }

  /** rewriteCode inserts a dot at exactly the positions that begin the segment or follow a
      boundary character and begin a reference, all read off the original text; deleting these
      dots gives the original back. */
  lemma RewriteInsertsExactly(code: string)
    ensures RewriteCode(code) == Splice(code, ReferenceMarks(code, true))
    ensures Unsplice(RewriteCode(code), ReferenceMarks(code, true)) == code
  {
    RewriteIsDotted(code);
    DottedIsSplice(code, true);
    UnspliceSplice(code, ReferenceMarks(code, true));
  }

  /** Which positions these are, character by character: the first one, or one behind white space, a
      parenthesis, a bar or a comma; and what begins there is one of the three prefixes, or one of
      the two names as a whole word. */
  lemma MarkedExactly(code: string, p: nat)
    requires p < |code|
    ensures ReferenceMarks(code, true)[p] <==>
            && (p == 0 || code[p - 1] == ' ' || code[p - 1] == '\t' || code[p - 1] == '\n' || code[p - 1] == '\r'
                || code[p - 1] == 12 as char || code[p - 1] == '(' || code[p - 1] == '|' || code[p - 1] == ',')
            && ("trigger." <= code[p..] || "system." <= code[p..] || "headers." <= code[p..]
                || ("queue" <= code[p..] && EndsWord(code, p + 5))
                || ("routing_key" <= code[p..] && EndsWord(code, p + 11)))
  {
    var rest := code[p..];
    PrefixIsStart(rest, "trigger.");
    PrefixIsStart(rest, "system.");
    PrefixIsStart(rest, "headers.");
    PrefixIsStart(rest, "queue");
    PrefixIsStart(rest, "routing_key");
    assert "queue" <= rest && |rest| > 5 ==> rest[5] == code[p + 5];
    assert "routing_key" <= rest && |rest| > 11 ==> rest[11] == code[p + 11];
  }

  /** No letter, digit or underscore is at position k. */
  predicate EndsWord(code: string, k: nat) {
    k >= |code|
    || !('a' <= code[k] <= 'z' || 'A' <= code[k] <= 'Z' || '0' <= code[k] <= '9' || code[k] == '_')
  }

  lemma PrefixIsStart(s: string, word: string)
    ensures word <= s <==> StartsWith(s, word)
  {
    if StartsWith(s, word) {
      assert s == s[..|word|] + s[|word|..];
    }
  }
}
