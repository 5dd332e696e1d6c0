/** What the substitution loop means: on templates whose text, names and saved
    values cannot be mistaken for placeholders, the sequence of rewrites is one
    simultaneous replacement of the declared holes. */
module TemplateProofs {
  import opened Prelude
  import opened Types
  import opened Decimal
  import opened Materialize

  // A template read as literal characters and holes.
  datatype Token = Ch(c: char) | Hole(name: string)

  predicate CleanName(name: string) {
    '$' !in name && '"' !in name && '{' !in name && '}' !in name
  }

  predicate CleanText(text: string) {
    '$' !in text
  }

  ghost predicate CleanTokens(tokens: seq<Token>) {
    forall i | 0 <= i < |tokens| :: CleanToken(tokens[i])
  }

  predicate CleanToken(t: Token) {
    match t
    case Ch(c) => c != '$'
    case Hole(name) => CleanName(name)
  }

  ghost predicate CleanSaved(saved: map<string, Bytes>) {
    forall name | name in saved :: CleanText(saved[name])
  }

  function RenderToken(t: Token): string {
    match t
    case Ch(c) => [c]
    case Hole(name) => Placeholder(name)
  }

  /** The template text of a token sequence. */
  function Render(tokens: seq<Token>): string {
    if tokens == [] then "" else RenderToken(tokens[0]) + Render(tokens[1..])
  }

  function Literal(text: string): seq<Token> {
    seq(|text|, i requires 0 <= i < |text| => Ch(text[i]))
  }

  function FillToken(t: Token, name: string, text: string): seq<Token> {
    if t == Hole(name) then Literal(text) else [t]
  }

  function Fill(tokens: seq<Token>, name: string, text: string): seq<Token> {
    if tokens == [] then [] else FillToken(tokens[0], name, text) + Fill(tokens[1..], name, text)
  }

  /** All declared holes replaced at once; other holes stay as they are. */
  function Simultaneous(tokens: seq<Token>, values: map<string, string>): string {
    if tokens == [] then ""
    else
      (if tokens[0].Hole? && tokens[0].name in values then values[tokens[0].name] else RenderToken(tokens[0]))
      + Simultaneous(tokens[1..], values)
  }

  // --- Where a placeholder can occur ---

  lemma RenderHead(tokens: seq<Token>)
    requires CleanTokens(tokens)
    ensures Render(tokens) != "" ==> Render(tokens)[0] != '$'
  {
  }

  /** A placeholder starts right before a dollar sign. */
  lemma DollarFollows(name: string, s: string)
    requires Placeholder(name) <= s
    ensures |s| > 1 && s[1] == '$'
  {
    assert Placeholder(name)[1] == '$';
  }

  /** A name without braces is delimited by the closing brace. */
  lemma DelimitedName(name: string, other: string, rest: string)
    requires '}' !in name && '}' !in other
    requires name + "}" <= other + "}" + rest
    ensures name == other
  {
    var s := other + "}" + rest;
    assert forall i | 0 <= i < |name| :: name[i] == (name + "}")[i] == s[i];
    assert s[|name|] == (name + "}")[|name|] == '}' == s[|other|];
    assert forall i | 0 <= i < |other| :: other[i] == s[i];
    assert |name| == |other|;
  }

  lemma PlaceholdersDiffer(name: string, other: string, rest: string)
    requires CleanName(name) && CleanName(other)
    requires Placeholder(name) <= Placeholder(other) + rest
    ensures name == other
  {
    var p, s := Placeholder(name), Placeholder(other) + rest;
    assert name + "}" == p[3..4 + |name|] == s[3..4 + |name|];
    assert s[3..] == other + "}" + ("\"" + rest);
    assert s[3..4 + |name|] == s[3..][..1 + |name|];
    DelimitedName(name, other, "\"" + rest);
  }

  /** Text in front that no occurrence can start in is copied unchanged. */
  lemma {:induction false} ReplaceSkips(front: string, rest: string, name: string, text: string)
    requires forall p | 0 <= p < |front| :: !(Placeholder(name) <= (front + rest)[p..])
    ensures ReplaceAll(front + rest, Placeholder(name), text) == front + ReplaceAll(rest, Placeholder(name), text)
    ensures Contains(front + rest, Placeholder(name)) <==> Contains(rest, Placeholder(name))
  {
    var s := front + rest;
    if front == "" {
      assert s == rest;
    } else {
      assert s[0..] == s;
      assert s[1..] == front[1..] + rest;
      forall p | 0 <= p < |front| - 1
        ensures !(Placeholder(name) <= (front[1..] + rest)[p..])
      {
        assert (front[1..] + rest)[p..] == s[p + 1..];
      }
      ReplaceSkips(front[1..], rest, name, text);
      assert s[..1] + (front[1..] + ReplaceAll(rest, Placeholder(name), text))
          == front + ReplaceAll(rest, Placeholder(name), text);
      ContainsStep(s, Placeholder(name));
    }
  }

  lemma ContainsStep(s: string, pattern: string)
    requires s != ""
    ensures Contains(s, pattern) <==> pattern <= s || Contains(s[1..], pattern)
  {
    assert s[0..] == s;
    if i :| 0 <= i <= |s| && pattern <= s[i..] {
      if i > 0 {
        assert s[1..][i - 1..] == s[i..];
      }
    }
    if i :| 0 <= i <= |s[1..]| && pattern <= s[1..][i..] {
      assert s[1..][i..] == s[i + 1..];
    }
  }

  /** A token other than the hole itself hides no start of its placeholder. */
  lemma NoOccurrenceInToken(t: Token, rest: string, name: string)
    requires CleanToken(t) && CleanName(name) && t != Hole(name)
    requires rest != "" ==> rest[0] != '$'
    ensures forall p | 0 <= p < |RenderToken(t)| :: !(Placeholder(name) <= (RenderToken(t) + rest)[p..])
  {
    var s := RenderToken(t) + rest;
    forall p | 0 <= p < |RenderToken(t)|
      ensures !(Placeholder(name) <= s[p..])
    {
      if p == 0 && t.Hole? {
        assert s[0..] == s;
        if Placeholder(name) <= s {
          PlaceholdersDiffer(name, t.name, rest);
        }
      } else {
        NoDollarAfterStart(t, rest, p);
        if Placeholder(name) <= s[p..] {
          DollarFollows(name, s[p..]);
        }
      }
    }
  }

  /** The only dollar sign of a hole is its second character. */
  lemma NoDollarAfterStart(t: Token, rest: string, p: nat)
    requires CleanToken(t) && (t.Hole? ==> p > 0) && p < |RenderToken(t)|
    requires rest != "" ==> rest[0] != '$'
    ensures p + 1 < |RenderToken(t) + rest| ==> (RenderToken(t) + rest)[p + 1] != '$'
  {
    var s := RenderToken(t) + rest;
    if p + 1 == |RenderToken(t)| {
      assert rest != "" ==> s[p + 1] == rest[0];
    } else if 3 <= p + 1 < 3 + |t.name| {
      assert s[p + 1] == t.name[p - 2];
    }
  }

  /** One rewrite of the text fills exactly the holes of that name. */
  lemma {:induction false} ReplaceIsFill(tokens: seq<Token>, name: string, text: string)
    requires CleanTokens(tokens) && CleanName(name)
    ensures ReplaceAll(Render(tokens), Placeholder(name), text) == Render(Fill(tokens, name, text))
    ensures Contains(Render(tokens), Placeholder(name)) <==> Hole(name) in tokens
  {
    if tokens != [] {
      var rest := Render(tokens[1..]);
      ReplaceIsFill(tokens[1..], name, text);
      RenderHead(tokens[1..]);
      RenderConcat(FillToken(tokens[0], name, text), Fill(tokens[1..], name, text));
      if tokens[0] == Hole(name) {
        var s := Placeholder(name) + rest;
        assert s == Render(tokens);
        assert s[|Placeholder(name)|..] == rest;
        RenderLiteral(text);
        assert s[0..] == s;
      } else {
        NoOccurrenceInToken(tokens[0], rest, name);
        ReplaceSkips(RenderToken(tokens[0]), rest, name, text);
        assert Render([tokens[0]]) == RenderToken(tokens[0]) + Render([]) == RenderToken(tokens[0]);
      }
    }
  }

  lemma {:induction false} RenderConcat(front: seq<Token>, back: seq<Token>)
    ensures Render(front + back) == Render(front) + Render(back)
  {
    if front == [] {
      assert front + back == back;
    } else {
      assert (front + back)[1..] == front[1..] + back;
      RenderConcat(front[1..], back);
    }
  }

  lemma {:induction false} RenderLiteral(text: string)
    ensures Render(Literal(text)) == text
  {
    if text != "" {
      assert Literal(text)[1..] == Literal(text[1..]);
      RenderLiteral(text[1..]);
    }
  }

  lemma {:induction false} FillKeepsClean(tokens: seq<Token>, name: string, text: string)
    requires CleanTokens(tokens) && CleanText(text)
    ensures CleanTokens(Fill(tokens, name, text))
    ensures forall other :: Hole(other) in Fill(tokens, name, text) <==> Hole(other) in tokens && other != name
  {
    if tokens != [] {
      FillKeepsClean(tokens[1..], name, text);
    }
  }

  lemma {:induction false} SimultaneousAfterFill(tokens: seq<Token>, name: string, text: string, values: map<string, string>)
    requires name !in values
    ensures Simultaneous(Fill(tokens, name, text), values) == Simultaneous(tokens, values[name := text])
  {
    if tokens != [] {
      SimultaneousAfterFill(tokens[1..], name, text, values);
      SimultaneousConcat(FillToken(tokens[0], name, text), Fill(tokens[1..], name, text), values);
      if tokens[0] == Hole(name) {
        SimultaneousLiteral(text, values);
      } else {
        assert Simultaneous([], values) == "";
      }
    }
  }

  lemma {:induction false} SimultaneousConcat(front: seq<Token>, back: seq<Token>, values: map<string, string>)
    ensures Simultaneous(front + back, values) == Simultaneous(front, values) + Simultaneous(back, values)
  {
    if front == [] {
      assert front + back == back;
    } else {
      assert (front + back)[1..] == front[1..] + back;
      SimultaneousConcat(front[1..], back, values);
    }
  }

  lemma {:induction false} SimultaneousLiteral(text: string, values: map<string, string>)
    ensures Simultaneous(Literal(text), values) == text
  {
    if text != "" {
      assert Literal(text)[1..] == Literal(text[1..]);
      SimultaneousLiteral(text[1..], values);
    }
  }

  lemma {:induction false} SimultaneousNothing(tokens: seq<Token>)
    ensures Simultaneous(tokens, map[]) == Render(tokens)
  {
    if tokens != [] {
      SimultaneousNothing(tokens[1..]);
    }
  }

  // --- The main results ---

  /** The text a substitution contributes, or why it cannot. */
  function Answer(sub: Substitution, saved: map<string, Bytes>): Result<string, MaterializeError> {
    if sub.reference !in saved then Err(MissingSavedResult(sub.reference))
    else ApplySubstitutionOp(saved[sub.reference], sub.op, sub.reference)
  }

  /** Why the i-th substitution fails, judged on the original template alone:
      its saved value is missing, its op fails, or its hole does not occur or was
      already consumed by an earlier substitution. */
  ghost function FailureAt(tokens: seq<Token>, subs: seq<Substitution>, saved: map<string, Bytes>, i: nat)
    : Option<MaterializeError>
    requires i < |subs|
  {
    var answer := Answer(subs[i], saved);
    if answer.Err? then Some(answer.error)
    else if Hole(subs[i].reference) !in tokens || (exists j | 0 <= j < i :: subs[j].reference == subs[i].reference)
    then Some(PlaceholderNotFound(subs[i].reference))
    else None
  }

  ghost predicate FirstFailure(tokens: seq<Token>, subs: seq<Substitution>, saved: map<string, Bytes>,
                               i: nat, error: MaterializeError)
  {
    && i < |subs|
    && FailureAt(tokens, subs, saved, i) == Some(error)
    && forall j: nat | j < i :: FailureAt(tokens, subs, saved, j) == None
  }

  ghost predicate NoFailure(tokens: seq<Token>, subs: seq<Substitution>, saved: map<string, Bytes>) {
    forall i: nat | i < |subs| :: FailureAt(tokens, subs, saved, i) == None
  }

  ghost predicate CleanSubstitutions(subs: seq<Substitution>) {
    forall i | 0 <= i < |subs| :: CleanName(subs[i].reference)
  }

  /** The values of the declared names. */
  function Answers(subs: seq<Substitution>, saved: map<string, Bytes>): map<string, string> {
    if subs == [] then map[]
    else
      var later := Answers(subs[1..], saved);
      if Answer(subs[0], saved).Ok? then later[subs[0].reference := Answer(subs[0], saved).value] else later
  }

  lemma AnswerIsClean(sub: Substitution, saved: map<string, Bytes>)
    requires CleanSaved(saved) && Answer(sub, saved).Ok?
    ensures CleanText(Answer(sub, saved).value)
  {
  }

  lemma {:induction false} AnswersDomain(subs: seq<Substitution>, saved: map<string, Bytes>, name: string)
    requires name in Answers(subs, saved)
    ensures exists i | 0 <= i < |subs| :: subs[i].reference == name && Answer(subs[i], saved) == Ok(Answers(subs, saved)[name])
  {
    if name == subs[0].reference && Answer(subs[0], saved).Ok? {
      assert subs[0].reference == name;
    } else {
      AnswersDomain(subs[1..], saved, name);
      var i :| 0 <= i < |subs[1..]| && subs[1..][i].reference == name
               && Answer(subs[1..][i], saved) == Ok(Answers(subs[1..], saved)[name]);
      assert subs[i + 1].reference == name;
    }
  }

  lemma {:induction false} NotAnswered(subs: seq<Substitution>, saved: map<string, Bytes>, name: string)
    requires forall i | 0 <= i < |subs| :: subs[i].reference != name
    ensures name !in Answers(subs, saved)
  {
    if subs != [] {
      NotAnswered(subs[1..], saved, name);
    }
  }

  /** Filling the first hole leaves the later substitutions their own verdicts. */
  lemma FailureShifts(tokens: seq<Token>, subs: seq<Substitution>, saved: map<string, Bytes>, text: string, i: nat)
    requires CleanTokens(tokens) && CleanText(text) && i + 1 < |subs|
    ensures FailureAt(Fill(tokens, subs[0].reference, text), subs[1..], saved, i) == FailureAt(tokens, subs, saved, i + 1)
  {
    FillKeepsClean(tokens, subs[0].reference, text);
    var later := subs[1..];
    assert later[i] == subs[i + 1];
    if j :| 0 <= j < i && later[j].reference == later[i].reference {
      assert subs[j + 1].reference == subs[i + 1].reference;
    }
    if j :| 0 <= j < i + 1 && subs[j].reference == subs[i + 1].reference {
      if j > 0 {
        assert later[j - 1].reference == later[i].reference;
      }
    }
  }

  /** Sequential replacement is simultaneous replacement. */
  lemma {:induction false} LoopIsSimultaneous(tokens: seq<Token>, subs: seq<Substitution>, saved: map<string, Bytes>)
    requires CleanTokens(tokens) && CleanSubstitutions(subs) && CleanSaved(saved)
    requires NoFailure(tokens, subs, saved)
    ensures MaterializeArgs(Render(tokens), subs, saved) == Ok(Simultaneous(tokens, Answers(subs, saved)))
    decreases |subs|
  {
    if subs == [] {
      SimultaneousNothing(tokens);
    } else {
      assert FailureAt(tokens, subs, saved, 0) == None;
      var name, text := subs[0].reference, Answer(subs[0], saved).value;
      AnswerIsClean(subs[0], saved);
      ReplaceIsFill(tokens, name, text);
      FillKeepsClean(tokens, name, text);
      forall i: nat | i < |subs[1..]|
        ensures FailureAt(Fill(tokens, name, text), subs[1..], saved, i) == None
      {
        FailureShifts(tokens, subs, saved, text, i);
        assert FailureAt(tokens, subs, saved, i + 1) == None;
      }
      LoopIsSimultaneous(Fill(tokens, name, text), subs[1..], saved);
      forall i | 0 <= i < |subs[1..]|
        ensures subs[1..][i].reference != name
      {
        assert FailureAt(tokens, subs, saved, i + 1) == None;
        assert subs[0].reference != subs[i + 1].reference;
      }
      NotAnswered(subs[1..], saved, name);
      SimultaneousAfterFill(tokens, name, text, Answers(subs[1..], saved));
    }
  }

  /** The first substitution that fails on the original template decides the error. */
  lemma {:induction false} LoopFailsAtFirst(tokens: seq<Token>, subs: seq<Substitution>, saved: map<string, Bytes>,
                                            i: nat, error: MaterializeError)
    requires CleanTokens(tokens) && CleanSubstitutions(subs) && CleanSaved(saved)
    requires FirstFailure(tokens, subs, saved, i, error)
    ensures MaterializeArgs(Render(tokens), subs, saved) == Err(error)
    decreases |subs|
  {
    var name := subs[0].reference;
    ReplaceIsFill(tokens, name, if Answer(subs[0], saved).Ok? then Answer(subs[0], saved).value else "");
    if i > 0 {
      assert FailureAt(tokens, subs, saved, 0) == None;
      var text := Answer(subs[0], saved).value;
      AnswerIsClean(subs[0], saved);
      FillKeepsClean(tokens, name, text);
      forall j: nat | j < i
        ensures FailureAt(Fill(tokens, name, text), subs[1..], saved, j) == FailureAt(tokens, subs, saved, j + 1)
      {
        FailureShifts(tokens, subs, saved, text, j);
      }
      LoopFailsAtFirst(Fill(tokens, name, text), subs[1..], saved, i - 1, error);
    }
  }

  /** The loop fails exactly when some substitution does. */
  lemma MaterializeSucceedsIff(tokens: seq<Token>, subs: seq<Substitution>, saved: map<string, Bytes>)
    requires CleanTokens(tokens) && CleanSubstitutions(subs) && CleanSaved(saved)
    ensures MaterializeArgs(Render(tokens), subs, saved).Ok? <==> NoFailure(tokens, subs, saved)
  {
    if NoFailure(tokens, subs, saved) {
      LoopIsSimultaneous(tokens, subs, saved);
    } else {
      var i := FirstFailing(tokens, subs, saved, 0);
      LoopFailsAtFirst(tokens, subs, saved, i, FailureAt(tokens, subs, saved, i).value);
    }
  }

  lemma FirstFailing(tokens: seq<Token>, subs: seq<Substitution>, saved: map<string, Bytes>, from: nat) returns (i: nat)
    requires forall j: nat | j < from && j < |subs| :: FailureAt(tokens, subs, saved, j) == None
    requires !NoFailure(tokens, subs, saved)
    ensures i < |subs| && FailureAt(tokens, subs, saved, i).Some?
    ensures FirstFailure(tokens, subs, saved, i, FailureAt(tokens, subs, saved, i).value)
    decreases |subs| - from
  {
    assert from < |subs|;
    if FailureAt(tokens, subs, saved, from).Some? {
      i := from;
    } else {
      i := FirstFailing(tokens, subs, saved, from + 1);
    }
  }

  ghost predicate DistinctReferences(subs: seq<Substitution>) {
    forall i, j | 0 <= i < j < |subs| :: subs[i].reference != subs[j].reference
  }

  /** With distinct references the order of the substitutions does not matter. */
  lemma OrderIndependent(tokens: seq<Token>, subs: seq<Substitution>, subs': seq<Substitution>, saved: map<string, Bytes>)
    requires CleanTokens(tokens) && CleanSubstitutions(subs) && CleanSaved(saved)
    requires DistinctReferences(subs) && DistinctReferences(subs')
    requires multiset(subs) == multiset(subs')
    ensures
      var r, r' := MaterializeArgs(Render(tokens), subs, saved), MaterializeArgs(Render(tokens), subs', saved);
      (r.Ok? <==> r'.Ok?) && (r.Ok? ==> r == r')
  {
    SameMembers(subs, subs');
    forall i | 0 <= i < |subs'|
      ensures CleanName(subs'[i].reference)
    {
      assert subs'[i] in subs;
    }
    MaterializeSucceedsIff(tokens, subs, saved);
    MaterializeSucceedsIff(tokens, subs', saved);
    if NoFailure(tokens, subs, saved) {
      NoFailureMoves(tokens, subs, subs', saved);
      LoopIsSimultaneous(tokens, subs, saved);
      LoopIsSimultaneous(tokens, subs', saved);
      AnswersAgree(subs, subs', saved);
    } else if NoFailure(tokens, subs', saved) {
      NoFailureMoves(tokens, subs', subs, saved);
    }
  }

  lemma SameMembers(subs: seq<Substitution>, subs': seq<Substitution>)
    requires multiset(subs) == multiset(subs')
    ensures forall sub :: sub in subs <==> sub in subs'
  {
    forall sub
      ensures sub in subs <==> sub in subs'
    {
      assert sub in subs <==> sub in multiset(subs);
      assert sub in subs' <==> sub in multiset(subs');
    }
  }

  lemma NoFailureMoves(tokens: seq<Token>, subs: seq<Substitution>, subs': seq<Substitution>, saved: map<string, Bytes>)
    requires DistinctReferences(subs') && forall sub :: sub in subs <==> sub in subs'
    requires NoFailure(tokens, subs, saved)
    ensures NoFailure(tokens, subs', saved)
  {
    forall i: nat | i < |subs'|
      ensures FailureAt(tokens, subs', saved, i) == None
    {
      assert subs'[i] in subs;
      var k :| 0 <= k < |subs| && subs[k] == subs'[i];
      assert FailureAt(tokens, subs, saved, k) == None;
    }
  }

  lemma {:induction false} AnswersLookup(subs: seq<Substitution>, saved: map<string, Bytes>, i: nat)
    requires DistinctReferences(subs) && i < |subs| && Answer(subs[i], saved).Ok?
    ensures subs[i].reference in Answers(subs, saved)
    ensures Answers(subs, saved)[subs[i].reference] == Answer(subs[i], saved).value
  {
    if i > 0 {
      assert subs[1..][i - 1] == subs[i];
      AnswersLookup(subs[1..], saved, i - 1);
    }
  }

  lemma AnswersAgree(subs: seq<Substitution>, subs': seq<Substitution>, saved: map<string, Bytes>)
    requires DistinctReferences(subs) && DistinctReferences(subs') && forall sub :: sub in subs <==> sub in subs'
    ensures Answers(subs, saved) == Answers(subs', saved)
  {
    forall name
      ensures Get(Answers(subs, saved), name) == Get(Answers(subs', saved), name)
    {
      if name in Answers(subs, saved) {
        CarryAnswer(subs, subs', saved, name);
      } else if name in Answers(subs', saved) {
        CarryAnswer(subs', subs, saved, name);
      }
    }
    SameGets(Answers(subs, saved), Answers(subs', saved));
  }

  lemma CarryAnswer(subs: seq<Substitution>, subs': seq<Substitution>, saved: map<string, Bytes>, name: string)
    requires DistinctReferences(subs') && forall sub :: sub in subs <==> sub in subs'
    requires name in Answers(subs, saved)
    ensures Get(Answers(subs', saved), name) == Some(Answers(subs, saved)[name])
  {
    AnswersDomain(subs, saved, name);
    var i :| 0 <= i < |subs| && subs[i].reference == name && Answer(subs[i], saved) == Ok(Answers(subs, saved)[name]);
    assert subs[i] in subs';
    var k :| 0 <= k < |subs'| && subs'[k] == subs[i];
    AnswersLookup(subs', saved, k);
  }

  /** A saved value that looks like a placeholder is scanned again: the order of
      two substitutions on distinct names then decides between success and failure. */
  lemma SavedDollarBreaksOrder()
    ensures
      var x, y := Substitution("x", Raw), Substitution("y", Raw);
      var saved := map["x" := Placeholder("y"), "y" := "1"];
      && MaterializeArgs(Placeholder("x"), [x, y], saved) == Ok("1")
      && MaterializeArgs(Placeholder("x"), [y, x], saved) == Err(PlaceholderNotFound("y"))
  {
    var x, y := Substitution("x", Raw), Substitution("y", Raw);
    var saved := map["x" := Placeholder("y"), "y" := "1"];
    ReplaceWhole("x", Placeholder("y"));
    ReplaceWhole("y", "1");
    assert [x, y][1..] == [y] && [y][1..] == [];
    assert MaterializeArgs(Placeholder("y"), [y], saved) == Ok("1") by {
      assert MaterializeArgs("1", [], saved) == Ok("1");
    }
    var tokens := [Hole("x")];
    assert Render(tokens) == Placeholder("x") by {
      assert tokens[1..] == [];
    }
    ReplaceIsFill(tokens, "y", "");
  }

  lemma ReplaceWhole(name: string, text: string)
    ensures Contains(Placeholder(name), Placeholder(name))
    ensures ReplaceAll(Placeholder(name), Placeholder(name), text) == text
  {
    assert Placeholder(name)[0..] == Placeholder(name);
    assert Placeholder(name)[|Placeholder(name)|..] == "";
  }

  // --- One hole, in plain characters ---

  lemma NoDollarNoStart(s: string, name: string, p: nat)
    requires p < |s| && (p + 1 < |s| ==> s[p + 1] != '$')
    ensures !(Placeholder(name) <= s[p..])
  {
    if Placeholder(name) <= s[p..] {
      DollarFollows(name, s[p..]);
    }
  }

  /** The first occurrence of the quoted placeholder is the one written there. */
  lemma OneHoleReplaced(front: string, name: string, back: string, text: string)
    requires '$' !in front && '$' !in back
    ensures
      var template := front + "\"${" + name + "}\"" + back;
      && Contains(template, Placeholder(name))
      && ReplaceAll(template, Placeholder(name), text) == front + text + back
  {
    var hole, rest := Placeholder(name), Placeholder(name) + back;
    var template := front + rest;
    assert template == front + "\"${" + name + "}\"" + back;
    forall p | 0 <= p < |front|
      ensures !(hole <= template[p..])
    {
      assert p + 1 < |front| ==> template[p + 1] == front[p + 1];
      assert p + 1 == |front| ==> template[p + 1] == '"';
      NoDollarNoStart(template, name, p);
    }
    ReplaceSkips(front, rest, name, text);
    forall p | 0 <= p < |back|
      ensures !(hole <= (back + "")[p..])
    {
      assert back + "" == back;
      NoDollarNoStart(back, name, p);
    }
    ReplaceSkips(back, "", name, text);
    assert back + "" == back;
    assert rest[0..] == rest && rest[|hole|..] == back;
  }

  /** Raw splices the saved bytes in as they are, whatever they are, quotes included,
      in place of the quoted placeholder. */
  lemma RawSplices(front: string, name: string, back: string, saved: map<string, Bytes>)
    requires '$' !in front && '$' !in back && name in saved
    ensures MaterializeArgs(front + "\"${" + name + "}\"" + back, [Substitution(name, Raw)], saved) ==
            Ok(front + saved[name] + back)
  {
    OneHoleReplaced(front, name, back, saved[name]);
    OneSubstitution(front + "\"${" + name + "}\"" + back, Substitution(name, Raw), saved, saved[name]);
  }

  lemma OneSubstitution(template: Bytes, sub: Substitution, saved: map<string, Bytes>, text: string)
    requires sub.reference in saved && ApplySubstitutionOp(saved[sub.reference], sub.op, sub.reference) == Ok(text)
    requires Contains(template, Placeholder(sub.reference))
    ensures MaterializeArgs(template, [sub], saved) == Ok(ReplaceAll(template, Placeholder(sub.reference), text))
  {
    hide Contains, ReplaceAll, ApplySubstitutionOp;
    assert [sub][1..] == [];
  }

  lemma DivText(n: u128, d: u128, name: string)
    requires d > 0
    ensures ApplySubstitutionOp(Quote(Print(n)), DivU128(d), name) == Ok(Quote(Print(n / d)))
  {
    hide Print, ParseU128Json, Quote;
    PrintReadsBack(n);
  }

  lemma PercentText(n: u128, bps: u32, name: string)
    requires bps <= 10_000 && n * bps < TWO_128
    ensures ApplySubstitutionOp(Quote(Print(n)), PercentU128(bps), name) == Ok(Quote(Print(n * bps / 10_000)))
  {
    hide Print, ParseU128Json, Quote;
    PrintReadsBack(n);
  }

  /** The numeric operations put a quoted decimal number there: a saved u128, printed
      with its quotes, becomes its quotient, or its share, printed with quotes. */
  lemma QuotientSplices(front: string, name: string, back: string, n: u128, d: u128)
    requires '$' !in front && '$' !in back && d > 0
    ensures
      MaterializeArgs(front + "\"${" + name + "}\"" + back, [Substitution(name, DivU128(d))],
                      map[name := "\"" + Print(n) + "\""]) ==
      Ok(front + "\"" + Print(n / d) + "\"" + back)
  {
    DivText(n, d, name);
    hide Print, ApplySubstitutionOp;
    Spliced(front, name, back, DivU128(d), map[name := Quote(Print(n))], Print(n / d));
  }

  lemma ShareSplices(front: string, name: string, back: string, n: u128, bps: u32)
    requires '$' !in front && '$' !in back && bps <= 10_000 && n * bps < TWO_128
    ensures
      MaterializeArgs(front + "\"${" + name + "}\"" + back, [Substitution(name, PercentU128(bps))],
                      map[name := "\"" + Print(n) + "\""]) ==
      Ok(front + "\"" + Print(n * bps / 10_000) + "\"" + back)
  {
    PercentText(n, bps, name);
    hide Print, ApplySubstitutionOp;
    Spliced(front, name, back, PercentU128(bps), map[name := Quote(Print(n))], Print(n * bps / 10_000));
  }

  lemma Spliced(front: string, name: string, back: string, op: SubstitutionOp, saved: map<string, Bytes>, digits: string)
    requires '$' !in front && '$' !in back
    requires name in saved && ApplySubstitutionOp(saved[name], op, name) == Ok("\"" + digits + "\"")
    ensures MaterializeArgs(front + "\"${" + name + "}\"" + back, [Substitution(name, op)], saved) ==
            Ok(front + "\"" + digits + "\"" + back)
  {
    var text := "\"" + digits + "\"";
    OneHoleReplaced(front, name, back, text);
    OneSubstitution(front + "\"${" + name + "}\"" + back, Substitution(name, op), saved, text);
    assert front + text + back == front + "\"" + digits + "\"" + back;
  }
}
