/** RenderPayload and ValidateTemplates of pkg/engine/template.go. */
module Rendering {
  import opened Basics
  import opened Config
  import opened Payload
  import Template

  /** text/template and encoding/json, for one triggering message: which preprocessed texts parse,
      what they execute to, which texts consist of one json helper call, which outputs are valid
      JSON, and the marshalling of the result. */
  datatype Library = Library(
    parses: string -> bool, execute: string -> Option<string>, isTyped: string -> bool,
    isJSON: string -> bool, marshal: Tree -> Option<string>)

  predicate HasAction(s: string) {
    Template.FindPair('{', s) < |s|
  }

  /** strings.Count(s, "{{"). */
  function CountActions(s: string): nat
    decreases |s|
  {
    var i := Template.FindPair('{', s);
    if i == |s| then 0 else 1 + CountActions(s[i + 2..])
  }

  function ExecuteTemplate(lib: Library, text: string): Result<string> {
    var source := Template.Preprocess(text);
    if !lib.parses(source) then Err(ParseError(text))
    else
      match lib.execute(source)
      case Some(out) => Ok(out)
      case None => Err(ExecuteError(text))
  }

  function RenderLeaf(lib: Library, s: string, isKey: bool): Result<Leaf> {
    if !HasAction(s) then Ok(String(s))
    else
      match ExecuteTemplate(lib, s)
      case Err(error) => Err(error)
      case Ok(out) =>
        if !isKey && CountActions(s) == 1 && lib.isTyped(s) then
          if lib.isJSON(out) then Ok(RawJSON(out)) else Err(NotJSON(s))
        else Ok(String(out))
  }

  function LeafRenderer(lib: Library): LeafFunction {
    (s, isKey) => RenderLeaf(lib, s, isKey)
  }

  /** r is a result of RenderPayload under some orders of iteration. */
  ghost predicate MayRender(lib: Library, payload: Value, r: Result<string>) {
    match payload
    case Null => r == Ok("{}")
    case Text(raw) => r == ExecuteTemplate(lib, raw)
    case _ =>
      match r
      case Ok(out) => exists t :: Yields(payload, LeafRenderer(lib), t) && lib.marshal(t) == Some(out)
      case Err(error) =>
        FailsWith(payload, LeafRenderer(lib), error)
        || (error == MarshalError && exists t :: Yields(payload, LeafRenderer(lib), t) && lib.marshal(t) == None)
  }

  method RenderPayload(lib: Library, payload: Value) returns (r: Result<string>)
    ensures MayRender(lib, payload, r)
    ensures payload == Null ==> r == Ok("{}")
    ensures payload.Text? ==>
              var source := Template.Preprocess(payload.text);
              r == if !lib.parses(source) then Err(ParseError(payload.text))
                   else if lib.execute(source) == None then Err(ExecuteError(payload.text))
                   else Ok(lib.execute(source).value)
  {
    if payload == Null {
      return Ok("{}");
    }
    if payload.Text? {
      return ExecuteTemplate(lib, payload.text);
    }
    var rendered := TransformPayload(payload, LeafRenderer(lib));
    if rendered.Err? {
      return Err(rendered.error);
    }
    var marshaled := lib.marshal(rendered.value);
    r := if marshaled.Some? then Ok(marshaled.value) else Err(MarshalError);
  }

  // What a leaf becomes

  ghost predicate IsFirstPair(s: string, i: nat) {
    i + 2 <= |s| && s[i] == '{' && s[i + 1] == '{' && forall k :: 0 <= k < i && s[k] == '{' ==> s[k + 1] != '{'
  }

  /** One "{{", and behind it no other. */
  ghost predicate HasOneAction(s: string) {
    exists i: nat :: IsFirstPair(s, i) && !Template.HasPair('{', s[i + 2..])
  }

  lemma HasActionMeaning(s: string)
    ensures HasAction(s) <==> Template.HasPair('{', s)
    ensures HasAction(s) ==> IsFirstPair(s, Template.FindPair('{', s))
  {
    Template.FirstPair('{', s);
    Template.PairIsThere('{', s);
  }

  lemma OneFirstPair(s: string, i: nat, j: nat)
    requires IsFirstPair(s, i) && IsFirstPair(s, j)
    ensures i == j
  {
  }

  lemma OneActionMeaning(s: string)
    ensures CountActions(s) == 1 <==> HasOneAction(s)
  {
    var n := Template.FindPair('{', s);
    HasActionMeaning(s);
    if n < |s| {
      HasActionMeaning(s[n + 2..]);
      assert CountActions(s) == 1 <==> !HasAction(s[n + 2..]);
    }
    if i: nat :| IsFirstPair(s, i) && !Template.HasPair('{', s[i + 2..]) {
      assert Template.HasPair('{', s);
      OneFirstPair(s, i, n);
    }
  }

  /** A string without an action stays as it is. Otherwise its preprocessed text is executed, and the
      output is a typed value exactly if the string is no key and consists of one json helper call;
      then it must be JSON. */
  lemma LeafMeaning(lib: Library, s: string, isKey: bool)
    ensures var source, r := Template.Preprocess(s), LeafRenderer(lib)(s, isKey);
            && (!Template.HasPair('{', s) ==> r == Ok(String(s)))
            && (Template.HasPair('{', s) ==>
                  if !lib.parses(source) then r == Err(ParseError(s))
                  else if lib.execute(source) == None then r == Err(ExecuteError(s))
                  else
                    var out, typed := lib.execute(source).value, !isKey && HasOneAction(s) && lib.isTyped(s);
                    r == if !typed then Ok(String(out)) else if lib.isJSON(out) then Ok(RawJSON(out)) else Err(NotJSON(s)))
  {
    HasActionMeaning(s);
    OneActionMeaning(s);
  }

  /** In the rendered payload, a typed value is spliced in as JSON, and everything else is a text. */
  lemma ValueLeafMeaning(lib: Library, s: string, t: Tree)
    requires Yields(Text(s), LeafRenderer(lib), t)
    ensures t == if !Template.HasPair('{', s) then TreeText(s)
                 else
                   var out := lib.execute(Template.Preprocess(s));
                   if out == None then TreeNull
                   else if HasOneAction(s) && lib.isTyped(s) then TreeJSON(out.value)
                   else TreeText(out.value)
  {
    LeafMeaning(lib, s, false);
  }

  /** A key is always a text: its own, or what its template renders to. */
  lemma KeysStayTexts(lib: Library, k: Key)
    requires LeafRenderer(lib)(k.printed, true).Ok?
    ensures var out := lib.execute(Template.Preprocess(k.printed));
            if !Template.HasPair('{', k.printed) then NewKey(LeafRenderer(lib), k) == k.printed
            else out.Some? && NewKey(LeafRenderer(lib), k) == out.value
  {
    LeafMeaning(lib, k.printed, true);
  }

  // Validation

  /** The check of one string: a text with an action must parse. */
  predicate IsBad(parses: string -> bool, s: string) {
    HasAction(s) && !parses(Template.Preprocess(s))
  }

  ghost predicate Occurs(v: Value, s: string) {
    Reaches(v, s, true) || Reaches(v, s, false)
  }

  function BadText(parses: string -> bool): string -> bool {
    s => IsBad(parses, s)
  }

  /** transformPayload with the check, which never fails and collects the texts that `bad` finds. */
  method CheckPayload(v: Value, bad: string -> bool) returns (found: seq<string>)
    ensures forall s :: s in found <==> Occurs(v, s) && bad(s)
    decreases v, 1
  {
    match v {
      case Text(text) => found := CheckText(text, bad);
      case List(items) =>
        found := [];
        for i := 0 to |items|
          invariant forall s :: s in found <==> OccursBefore(items, i, s) && bad(s)
        {
          var more := CheckPayload(items[i], bad);
          assert forall s :: OccursBefore(items, i + 1, s) <==> OccursBefore(items, i, s) || Occurs(items[i], s);
          found := found + more;
        }
        assert forall s :: Occurs(v, s) <==> OccursBefore(items, |items|, s);
      case Mapping(entries) => found := CheckMapping(v, bad);
      case _ => found := [];
    }
  }

  ghost predicate OccursBefore(items: seq<Value>, n: nat, s: string) {
    exists i :: 0 <= i < n && i < |items| && Occurs(items[i], s)
  }

  ghost predicate OccursUnder(entries: map<Key, Value>, keys: set<Key>, s: string) {
    exists k :: k in keys && k in entries && (s == k.printed || Occurs(entries[k], s))
  }

  method CheckMapping(v: Value, bad: string -> bool) returns (found: seq<string>)
    requires v.Mapping?
    ensures forall s :: s in found <==> Occurs(v, s) && bad(s)
    decreases v, 0
  {
    var entries := v.entries;
    found := [];
    var todo := entries.Keys;
    ghost var done: set<Key> := {};
    while todo != {}
      invariant done + todo == entries.Keys
      invariant forall s :: s in found <==> OccursUnder(entries, done, s) && bad(s)
      decreases |todo|
    {
      var k :| k in todo;
      var key := CheckText(k.printed, bad);
      var more := CheckPayload(entries[k], bad);
      OneMoreEntry(entries, done, k);
      todo, done := todo - {k}, done + {k};
      found := found + key + more;
    }
    assert done == entries.Keys;
  }

  lemma OneMoreEntry(entries: map<Key, Value>, keys: set<Key>, k: Key)
    requires k in entries
    ensures forall s :: OccursUnder(entries, keys + {k}, s) <==>
              OccursUnder(entries, keys, s) || s == k.printed || Occurs(entries[k], s)
  {
    forall s
      ensures OccursUnder(entries, keys + {k}, s) <==>
                OccursUnder(entries, keys, s) || s == k.printed || Occurs(entries[k], s)
    {
      if OccursUnder(entries, keys, s) {
        var j :| j in keys && j in entries && (s == j.printed || Occurs(entries[j], s));
        assert j in keys + {k};
      }
      assert k in keys + {k};
    }
  }

  method CheckText(s: string, bad: string -> bool) returns (found: seq<string>)
    ensures forall u :: u in found <==> u == s && bad(u)
  {
    found := if bad(s) then [s] else [];
  }

  /** A text of a rule that does not parse. */
  datatype TemplateError = TemplateError(rule: nat, text: string)

  ghost predicate IsProblem(rules: seq<Rule>, parses: string -> bool, e: TemplateError) {
    e.rule < |rules| && Occurs(rules[e.rule].response.payload, e.text) && IsBad(parses, e.text)
  }

  /** ValidateTemplates reports exactly the unparsable texts of the rules. */
  method ValidateTemplates(rules: seq<Rule>, parses: string -> bool) returns (errors: seq<TemplateError>)
    ensures forall e :: e in errors <==> IsProblem(rules, parses, e)
    ensures errors == [] <==> forall i :: 0 <= i < |rules| ==> TemplatesParse(parses, rules[i].response.payload)
  {
    errors := [];
    for i := 0 to |rules|
      invariant forall e :: e in errors <==> e.rule < i && IsProblem(rules, parses, e)
    {
      var bad := CheckRule(rules[i], parses);
      var more := Labelled(i, bad);
      forall e ensures e in errors + more <==> e.rule < i + 1 && IsProblem(rules, parses, e) {
        assert e in errors + more <==> e in errors || e in more;
      }
      errors := errors + more;
    }
    NoProblems(rules, parses, errors);
  }

  function Labelled(i: nat, texts: seq<string>): (r: seq<TemplateError>)
    ensures forall e :: e in r <==> e.rule == i && e.text in texts
  {
    if texts == [] then [] else [TemplateError(i, texts[0])] + Labelled(i, texts[1..])
  }

  method CheckRule(rule: Rule, parses: string -> bool) returns (bad: seq<string>)
    ensures forall s :: s in bad <==> Occurs(rule.response.payload, s) && IsBad(parses, s)
  {
    var payload := rule.response.payload;
    if payload == Null {
      bad := [];
    } else if payload.Text? {
      bad := CheckText(payload.text, BadText(parses));
    } else {
      bad := CheckPayload(payload, BadText(parses));
    }
  }

  lemma NoProblems(rules: seq<Rule>, parses: string -> bool, errors: seq<TemplateError>)
    requires forall e :: e in errors <==> IsProblem(rules, parses, e)
    ensures errors == [] <==> forall i :: 0 <= i < |rules| ==> TemplatesParse(parses, rules[i].response.payload)
  {
    if errors != [] {
      var e := errors[0];
      assert e in errors;
      assert !TemplatesParse(parses, rules[e.rule].response.payload);
    } else {
      forall i, s | 0 <= i < |rules| && Occurs(rules[i].response.payload, s) ensures !IsBad(parses, s) {
        assert TemplateError(i, s) !in errors;
        assert !IsProblem(rules, parses, TemplateError(i, s));
      }
    }
  }

  // Validation covers rendering

  /** What ValidateTemplates accepts. */
  ghost predicate TemplatesParse(parses: string -> bool, payload: Value) {
    forall s :: Occurs(payload, s) ==> !IsBad(parses, s)
  }

  /** Text without an action always parses. */
  ghost predicate PlainTextParses(parses: string -> bool) {
    forall s :: !HasAction(s) ==> parses(s)
  }

  lemma NoActionNoChange(s: string)
    requires !HasAction(s)
    ensures Template.Preprocess(s) == s
  {
    Template.PreprocessPlain(s);
  }

  lemma LeavesParse(lib: Library, payload: Value, s: string, isKey: bool)
    requires TemplatesParse(lib.parses, payload) && Reaches(payload, s, isKey)
    ensures HasAction(s) ==> lib.parses(Template.Preprocess(s))
    ensures LeafRenderer(lib)(s, isKey).Err? ==> !LeafRenderer(lib)(s, isKey).error.ParseError?
  {
    assert Occurs(payload, s);
  }

  /** A payload whose templates all parse never fails to render because of a parse error, whatever
      the message (the other parts of the library) and the orders of iteration. */
  lemma ValidatedNeverFailsToParse(lib: Library, payload: Value, text: string)
    requires PlainTextParses(lib.parses)
    requires TemplatesParse(lib.parses, payload)
    ensures !MayRender(lib, payload, Err(ParseError(text)))
  {
    forall s, isKey | Reaches(payload, s, isKey) ensures LeafRenderer(lib)(s, isKey) != Err(ParseError(text)) {
      LeavesParse(lib, payload, s, isKey);
    }
    if payload.Text? {
      LeavesParse(lib, payload, payload.text, false);
      if !HasAction(payload.text) {
        NoActionNoChange(payload.text);
        assert lib.parses(payload.text);
      }
    }
  }

  lemma BadTextFails(lib: Library, payload: Value)
    requires !TemplatesParse(lib.parses, payload)
    ensures Fails(payload, LeafRenderer(lib))
    ensures payload.Text? ==> ExecuteTemplate(lib, payload.text).Err?
  {
    var s :| Occurs(payload, s) && IsBad(lib.parses, s);
    var isKey :| Reaches(payload, s, isKey);
    assert LeafRenderer(lib)(s, isKey) == RenderLeaf(lib, s, isKey);
  }

  /** A payload with a template that does not parse never renders, whatever the message. */
  lemma RejectedNeverRenders(lib: Library, payload: Value, out: string)
    requires !TemplatesParse(lib.parses, payload)
    ensures !MayRender(lib, payload, Ok(out))
  {
    BadTextFails(lib, payload);
    if !payload.Text? && !payload.Null? {
      forall t ensures !Yields(payload, LeafRenderer(lib), t) {
        if Yields(payload, LeafRenderer(lib), t) {
          YieldedMeansNoFailure(payload, LeafRenderer(lib), t);
          assert false;
        }
      }
    }
  }

  // A payload with two renderings

  const INT_ONE := Key("int", "1")
  const TEXT_ONE := Key("string", "1")

  /** {1: 10, "1": 20} in YAML. */
  const COLLIDING := Mapping(map[INT_ONE := Scalar("10"), TEXT_ONE := Scalar("20")])

  lemma CollidingHasNoActions(lib: Library)
    ensures !Fails(COLLIDING, LeafRenderer(lib))
    ensures forall k :: k in COLLIDING.entries ==> NewKey(LeafRenderer(lib), k) == "1"
  {
    assert !HasAction("1");
    assert LeafRenderer(lib)("1", true) == Ok(String("1"));
    forall s, isKey | Reaches(COLLIDING, s, isKey) ensures s == "1" && isKey {
      var k :| k in COLLIDING.entries && ((isKey && s == k.printed) || Reaches(COLLIDING.entries[k], s, isKey));
      assert COLLIDING.entries[k].Scalar?;
    }
  }

  const TEN := TreeMap(map["1" := TreeScalar("10")])
  const TWENTY := TreeMap(map["1" := TreeScalar("20")])

  /** Traversed in this order, the last of two colliding entries wins. */
  lemma LastOfTwoWins(fn: LeafFunction, results: map<Key, Tree>, first: Key, last: Key, n: string)
    requires first in results && last in results && NewKey(fn, first) == n && NewKey(fn, last) == n
    ensures Collect(fn, results, [first, last]) == map[n := results[last]]
  {
    assert [first, last][..1] == [first] && [first][..0] == [];
    assert Collect(fn, results, [first]) == map[n := results[first]];
  }

  lemma TwoEntriesYield(v: Value, fn: LeafFunction, first: Key, last: Key, results: map<Key, Tree>, n: string)
    requires v.Mapping? && first != last && v.entries.Keys == {first, last} == results.Keys
    requires forall k :: k in v.entries ==> fn(k.printed, true).Ok? && NewKey(fn, k) == n && Yields(v.entries[k], fn, results[k])
    ensures Yields(v, fn, TreeMap(map[n := results[last]]))
  {
    LastOfTwoWins(fn, results, first, last, n);
    assert YieldsInOrder(v, fn, [first, last], results, map[n := results[last]]);
  }

  const TREES := map[INT_ONE := TreeScalar("10"), TEXT_ONE := TreeScalar("20")]

  lemma LastOfCollidingWins(lib: Library, first: Key, last: Key)
    requires (first == INT_ONE && last == TEXT_ONE) || (first == TEXT_ONE && last == INT_ONE)
    ensures Yields(COLLIDING, LeafRenderer(lib), TreeMap(map["1" := TREES[last]]))
  {
    CollidingHasNoActions(lib);
    EntriesSucceed(COLLIDING, LeafRenderer(lib));
    TwoEntriesYield(COLLIDING, LeafRenderer(lib), first, last, TREES, "1");
  }

  /** Whichever of the two entries comes last wins, for every library: the mapping becomes {"1": 10}
      or {"1": 20}. */
  lemma CollidingKeysYieldTwoTrees(lib: Library)
    ensures Yields(COLLIDING, LeafRenderer(lib), TEN) && Yields(COLLIDING, LeafRenderer(lib), TWENTY)
  {
    LastOfCollidingWins(lib, TEXT_ONE, INT_ONE);
    LastOfCollidingWins(lib, INT_ONE, TEXT_ONE);
  }

  /** So a library that marshals different trees differently renders this payload in two ways. */
  lemma CollidingKeysRenderTwice(lib: Library)
    requires lib.marshal(TEN).Some? && lib.marshal(TWENTY).Some? && lib.marshal(TEN) != lib.marshal(TWENTY)
    ensures exists a, b :: a != b && MayRender(lib, COLLIDING, Ok(a)) && MayRender(lib, COLLIDING, Ok(b))
  {
    CollidingKeysYieldTwoTrees(lib);
    var a, b := lib.marshal(TEN).value, lib.marshal(TWENTY).value;
    assert MayRender(lib, COLLIDING, Ok(a)) && MayRender(lib, COLLIDING, Ok(b));
  }
}
