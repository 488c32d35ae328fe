/** Topic matching (topicMatches and matchWords of pkg/config/validate.go) against the matching
    rule of AMQP 0-9-1, section 3.1.3.3. */
module Topic {

  /** What the words of a key that one pattern word stands for may be. */
  predicate Fits(word: string, segment: seq<string>) {
    word == "#" || (|segment| == 1 && (word == "*" || word == segment[0]))
  }

  function Flatten(segments: seq<seq<string>>): seq<string> {
    if segments == [] then [] else segments[0] + Flatten(segments[1..])
  }

  ghost predicate IsCut(pattern: seq<string>, key: seq<string>, segments: seq<seq<string>>) {
    && |segments| == |pattern|
    && Flatten(segments) == key
    && forall i :: 0 <= i < |pattern| ==> Fits(pattern[i], segments[i])
  }

  /** The specification: the key can be cut into consecutive segments, one for each word of the
      pattern, such that every word fits its segment. */
  ghost predicate Accepts(pattern: seq<string>, key: seq<string>) {
    exists segments :: IsCut(pattern, key, segments)
  }

  lemma AcceptsEmpty(key: seq<string>)
    ensures Accepts([], key) <==> key == []
  {
    assert Accepts([], []) by {
      assert IsCut([], [], []);
    }
  }

  /** The first word takes i words of the key and the rest of the pattern takes the others. */
  lemma AcceptsCons(pattern: seq<string>, key: seq<string>, i: nat)
    requires pattern != [] && i <= |key| && Fits(pattern[0], key[..i]) && Accepts(pattern[1..], key[i..])
    ensures Accepts(pattern, key)
  {
    var rest :| IsCut(pattern[1..], key[i..], rest);
    var segments := [key[..i]] + rest;
    assert segments[1..] == rest;
    assert key == key[..i] + key[i..];
    assert IsCut(pattern, key, segments);
  }

  lemma AcceptsUncons(pattern: seq<string>, key: seq<string>) returns (i: nat)
    requires pattern != [] && Accepts(pattern, key)
    ensures i <= |key| && Fits(pattern[0], key[..i]) && Accepts(pattern[1..], key[i..])
  {
    var segments :| IsCut(pattern, key, segments);
    i := |segments[0]|;
    assert key[..i] == segments[0] && key[i..] == Flatten(segments[1..]);
    assert IsCut(pattern[1..], key[i..], segments[1..]);
  }

  /** matchWords decides the specification. */
  method MatchWords(pattern: seq<string>, key: seq<string>) returns (matches: bool)
    ensures matches <==> Accepts(pattern, key)
    decreases |pattern|
  {
    if |pattern| == 0 {
      AcceptsEmpty(key);
      return |key| == 0;
    }
    if pattern[0] == "#" {
      for i := 0 to |key| + 1
        invariant forall j :: 0 <= j < i ==> !Accepts(pattern[1..], key[j..])
      {
        var rest := MatchWords(pattern[1..], key[i..]);
        if rest {
          AcceptsCons(pattern, key, i);
          return true;
        }
      }
      if Accepts(pattern, key) {
        var i := AcceptsUncons(pattern, key);
      }
      return false;
    }
    if |key| > 0 && (pattern[0] == "*" || pattern[0] == key[0]) {
      matches := MatchWords(pattern[1..], key[1..]);
      if matches {
        AcceptsCons(pattern, key, 1);
      }
    } else {
      matches := false;
    }
    if Accepts(pattern, key) {
      var i := AcceptsUncons(pattern, key);
      assert i == 1 && key[..1][0] == key[0];
    }
  }

  // Consequences

  /** A pattern is matched piecewise. */
  lemma {:induction false} AcceptsConcat(left: seq<string>, right: seq<string>, key: seq<string>)
    ensures Accepts(left + right, key) <==>
            exists i :: 0 <= i <= |key| && Accepts(left, key[..i]) && Accepts(right, key[i..])
    decreases |left|
  {
    if left == [] {
      assert left + right == right && key[..0] == [] && key[0..] == key;
      AcceptsEmpty([]);
      assert Accepts(left, key[..0]);
      forall i | 0 <= i <= |key| && Accepts(left, key[..i]) ensures i == 0 {
        AcceptsEmpty(key[..i]);
      }
    } else {
      assert (left + right)[1..] == left[1..] + right && (left + right)[0] == left[0];
      if Accepts(left + right, key) {
        var i := AcceptsUncons(left + right, key);
        AcceptsConcat(left[1..], right, key[i..]);
        var j :| 0 <= j <= |key[i..]| && Accepts(left[1..], key[i..][..j]) && Accepts(right, key[i..][j..]);
        assert key[..i + j][..i] == key[..i] && key[..i + j][i..] == key[i..][..j] && key[i + j..] == key[i..][j..];
        AcceptsCons(left, key[..i + j], i);
      }
      if k :| 0 <= k <= |key| && Accepts(left, key[..k]) && Accepts(right, key[k..]) {
        var i := AcceptsUncons(left, key[..k]);
        var j := k - i;
        assert key[..k][..i] == key[..i] && key[..k][i..] == key[i..][..j] && key[k..] == key[i..][j..];
        AcceptsConcat(left[1..], right, key[i..]);
        AcceptsCons(left + right, key, i);
      }
    }
  }

  /** Patterns that accept the same keys can replace each other inside any pattern. */
  lemma Replaceable(left: seq<string>, p: seq<string>, q: seq<string>, right: seq<string>, key: seq<string>)
    requires forall k :: Accepts(p, k) <==> Accepts(q, k)
    ensures Accepts(left + p + right, key) <==> Accepts(left + q + right, key)
  {
    forall k ensures Accepts(left + p, k) <==> Accepts(left + q, k) {
      AcceptsConcat(left, p, k);
      AcceptsConcat(left, q, k);
    }
    AcceptsConcat(left + p, right, key);
    AcceptsConcat(left + q, right, key);
  }

  lemma HashAcceptsAll(key: seq<string>)
    ensures Accepts(["#"], key)
  {
    assert key[|key|..] == [] && ["#"][1..] == [];
    AcceptsEmpty([]);
    AcceptsCons(["#"], key, |key|);
  }

  lemma StarAcceptsOne(key: seq<string>)
    ensures Accepts(["*"], key) <==> |key| == 1
  {
    assert ["*"][1..] == [];
    if |key| == 1 {
      assert key[1..] == [];
      AcceptsEmpty([]);
      AcceptsCons(["*"], key, 1);
    }
    if Accepts(["*"], key) {
      var i := AcceptsUncons(["*"], key);
      AcceptsEmpty(key[i..]);
    }
  }

  /** Adjacent '#' words collapse, anywhere in a pattern. */
  lemma AdjacentHashesCollapse(left: seq<string>, right: seq<string>, key: seq<string>)
    ensures Accepts(left + ["#", "#"] + right, key) <==> Accepts(left + ["#"] + right, key)
  {
    forall k ensures Accepts(["#", "#"], k) <==> Accepts(["#"], k) {
      HashAcceptsAll(k[..0]);
      HashAcceptsAll(k[0..]);
      HashAcceptsAll(k);
      assert ["#"] + ["#"] == ["#", "#"];
      AcceptsConcat(["#"], ["#"], k);
    }
    Replaceable(left, ["#", "#"], ["#"], right, key);
  }

  /** "#.*" and "*.#" both mean at least one word, anywhere in a pattern. */
  lemma HashAndStarCommute(left: seq<string>, right: seq<string>, key: seq<string>)
    ensures Accepts(left + ["#", "*"] + right, key) <==> Accepts(left + ["*", "#"] + right, key)
  {
    forall k ensures Accepts(["#", "*"], k) <==> |k| >= 1 {
      assert ["#"] + ["*"] == ["#", "*"];
      AcceptsConcat(["#"], ["*"], k);
      forall i | 0 <= i <= |k| ensures Accepts(["*"], k[i..]) <==> i == |k| - 1 {
        StarAcceptsOne(k[i..]);
      }
      if |k| >= 1 {
        HashAcceptsAll(k[..|k| - 1]);
      }
    }
    forall k ensures Accepts(["*", "#"], k) <==> |k| >= 1 {
      assert ["*"] + ["#"] == ["*", "#"];
      AcceptsConcat(["*"], ["#"], k);
      forall i | 0 <= i <= |k| ensures Accepts(["*"], k[..i]) <==> i == 1 {
        StarAcceptsOne(k[..i]);
      }
      if |k| >= 1 {
        HashAcceptsAll(k[1..]);
      }
    }
    Replaceable(left, ["#", "*"], ["*", "#"], right, key);
  }

  /** Every key, read as a pattern, accepts itself, even when its words are '*' or '#'. */
  lemma {:induction false} KeyAcceptsItself(key: seq<string>)
    ensures Accepts(key, key)
    decreases |key|
  {
    if key == [] {
      AcceptsEmpty([]);
    } else {
      KeyAcceptsItself(key[1..]);
      assert key[..1][0] == key[0];
      AcceptsCons(key, key, 1);
    }
  }

  /** A pattern without wildcard words accepts only itself. */
  lemma {:induction false} LiteralPatternIsExact(pattern: seq<string>, key: seq<string>)
    requires "*" !in pattern && "#" !in pattern
    ensures Accepts(pattern, key) <==> key == pattern
    decreases |pattern|
  {
    if pattern == [] {
      AcceptsEmpty(key);
    } else {
      KeyAcceptsItself(pattern);
      if Accepts(pattern, key) {
        var i := AcceptsUncons(pattern, key);
        LiteralPatternIsExact(pattern[1..], key[i..]);
        assert key == key[..1] + key[1..] && key[..1] == [pattern[0]];
        assert pattern == [pattern[0]] + pattern[1..];
      }
    }
  }

  // Routing keys

  /** The dot-separated words of a routing key; the empty key has one empty word. */
  function Words(s: string): (words: seq<string>)
    ensures |words| >= 1
  {
    if s == "" then [""]
    else
      var rest := Words(s[1..]);
      if s[0] == '.' then [""] + rest else [[s[0]] + rest[0]] + rest[1..]
  }

  function Joined(words: seq<string>): string
    requires |words| >= 1
  {
    if |words| == 1 then words[0] else words[0] + "." + Joined(words[1..])
  }

  lemma {:induction false} WordsRoundTrip(s: string)
    ensures Joined(Words(s)) == s
    ensures forall i :: 0 <= i < |Words(s)| ==> '.' !in Words(s)[i]
  {
    if s != "" {
      var rest := Words(s[1..]);
      WordsRoundTrip(s[1..]);
      if s[0] == '.' {
        assert Words(s)[1..] == rest;
        assert "" + "." + Joined(rest) == s;
      } else if |rest| > 1 {
        assert Words(s)[1..] == rest[1..];
        assert ([s[0]] + rest[0]) + "." + Joined(rest[1..]) == [s[0]] + (rest[0] + "." + Joined(rest[1..]));
      }
    }
  }

  method TopicMatches(pattern: string, key: string) returns (matches: bool)
    ensures matches <==> Accepts(Words(pattern), Words(key))
  {
    matches := MatchWords(Words(pattern), Words(key));
  }

  /** Topic routing delivers whatever direct routing delivers. */
  lemma TopicCoversDirect(bindingKey: string, routingKey: string)
    requires bindingKey == routingKey
    ensures Accepts(Words(bindingKey), Words(routingKey))
  {
    KeyAcceptsItself(Words(routingKey));
  }
}
