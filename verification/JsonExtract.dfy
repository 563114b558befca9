// `extract_json` as a whole: cutting the text from the first "{" to the last "}", parsing all of
// it, and what that gives for a printed value.
module JsonExtract {
  import opened JsonComplete
  import opened JsonGrammar
  import opened JsonParser
  import opened JsonSound
  import opened JsonSyntax
  import opened Options

  // s.index("{"), or the length of s where Python raises ValueError.
  function FirstOpen(s: string): (r: nat)
    ensures r <= |s|
    ensures r < |s| ==> s[r] == '{'
    ensures forall i :: 0 <= i < r ==> s[i] != '{'
  {
    if s == "" || s[0] == '{' then 0 else 1 + FirstOpen(s[1..])
  }

  // s.rfind("}") + 1
  function CloseEnd(s: string): (r: nat)
    ensures r <= |s|
    ensures r > 0 ==> s[r - 1] == '}'
    ensures forall i :: r <= i < |s| ==> s[i] != '}'
  {
    if s == "" || s[|s| - 1] == '}' then |s| else CloseEnd(s[..|s| - 1])
  }

  predicate IsSpace(c: char) { c == ' ' || '\t' <= c <= '\r' || '\U{1c}' <= c <= '\U{1f}' }

  function StripLeft(s: string): string {
    if s != "" && IsSpace(s[0]) then StripLeft(s[1..]) else s
  }

  function StripRight(s: string): string {
    if s != "" && IsSpace(s[|s| - 1]) then StripRight(s[..|s| - 1]) else s
  }

  // The cut of the text that is parsed, or None where s.index raises.
  function Core(s: string): Option<string> {
    if FirstOpen(s) == |s| then None
    else
      var cut := if FirstOpen(s) <= CloseEnd(s) then s[FirstOpen(s)..CloseEnd(s)] else "";
      Some(StripRight(StripLeft(cut)))
  }

  // None stands for ValueError.
  function ExtractJson(num: Numbers, s: string): Option<Value> {
    match Core(s)
    case None => None
    case Some(core) =>
      match ParseValue(num, core, 0)
      case Raise => None
      case Return(v, pos) => if SkipBlanks(core, pos) == |core| then Some(v) else None
  }

  // ---- exactly the texts around an object of the language are accepted ----

  predicate Lacks(s: string, c: char) { forall i :: 0 <= i < |s| ==> s[i] != c }

  // s is the text of the object t, which means v, between other text.
  predicate Holds(num: Numbers, s: string, v: Value, pre: string, t: Tree, post: string) {
    && t.Object? && Valid(num, t) && Meaning(num, t) == v
    && s == pre + Render(t) + post && Lacks(pre, '{') && Lacks(post, '}')
  }

  lemma {:induction false} ObjectEnds(t: Tree)
    requires t.Object?
    ensures var r := Render(t); |r| >= 2 && r[0] == '{' && r[|r| - 1] == '}'
  {}

  lemma {:induction false} CoreOf(s: string, pre: string, core: string, post: string)
    requires s == pre + core + post && Lacks(pre, '{') && Lacks(post, '}')
    requires |core| >= 2 && core[0] == '{' && core[|core| - 1] == '}'
    ensures Core(s) == Some(core)
  {
    hide FirstOpen, CloseEnd, StripLeft, StripRight;
    OpenAt(s, |pre|, pre, core + post);
    CloseAt(s, |pre| + |core|, pre + core, post);
    assert s[|pre|..|pre| + |core|] == core;
    Unstripped(core);
  }

  lemma {:induction false} OpenAt(s: string, n: nat, pre: string, rest: string)
    requires s == pre + rest && n == |pre| && Lacks(pre, '{') && rest != "" && rest[0] == '{'
    ensures FirstOpen(s) == n
  {
    hide FirstOpen;
    assert s[n] == '{' && forall i :: 0 <= i < n ==> s[i] == pre[i];
  }

  lemma {:induction false} CloseAt(s: string, m: nat, rest: string, post: string)
    requires s == rest + post && m == |rest| && Lacks(post, '}') && rest != "" && rest[m - 1] == '}'
    ensures CloseEnd(s) == m
  {
    hide CloseEnd;
    assert s[m - 1] == '}' && forall i :: m <= i < |s| ==> s[i] == post[i - m];
  }

  lemma {:induction false} Unstripped(core: string)
    requires |core| >= 2 && core[0] == '{' && core[|core| - 1] == '}'
    ensures StripRight(StripLeft(core)) == core
  {}

  // Any text around the object, any quoting, escapes, blanks and trailing commas inside.
  lemma {:induction false} Accepts(num: Numbers, s: string, v: Value, pre: string, t: Tree, post: string)
    requires Holds(num, s, v, pre, t, post)
    ensures ExtractJson(num, s) == Some(v)
  {
    hide ParseValue, Valid, Meaning, Render;
    var core := Render(t);
    ObjectEnds(t);
    CoreOf(s, pre, core, post);
    Whole(core);
    StandingRead(num, core, 0, t);
    TreeParsed(num, core, 0, t);
  }

  lemma {:induction false} Whole(t: string)
    ensures At(t, 0, t)
  {}

  lemma {:induction false} WholeOnly(s: string, t: string)
    requires At(s, 0, t) && |t| == |s|
    ensures s == t
  {
    Cut(s, 0, t);
  }

  lemma {:induction false} NotBlankEnd(core: string, p: nat)
    requires p <= |core| && |core| >= 1 && SkipBlanks(core, p) == |core| && !IsBlank(core[|core| - 1])
    ensures p == |core|
    decreases |core| - p
  {
    if p < |core| { NotBlankEnd(core, p + 1); }
  }

  // s is c, which opens and closes with braces, between other text.
  predicate Around(s: string, pre: string, c: string, post: string) {
    && s == pre + c + post && Lacks(pre, '{') && Lacks(post, '}')
    && |c| >= 2 && c[0] == '{' && c[|c| - 1] == '}'
  }

  lemma {:induction false} CutAround(s: string, n: nat, m: nat)
    requires n == FirstOpen(s) < CloseEnd(s) == m
    ensures Around(s, s[..n], s[n..m], s[m..])
  {
    hide FirstOpen, CloseEnd;
    assert s == s[..n] + s[n..m] + s[m..];
  }

  lemma {:induction false} CoreShape(s: string)
    requires Core(s).Some?
    ensures var c := Core(s).value; c == "" || exists pre, post :: Around(s, pre, c, post)
  {
    hide FirstOpen, CloseEnd, StripLeft, StripRight, Around;
    var n, m := FirstOpen(s), CloseEnd(s);
    StrippedEmpty();
    if n < m {
      CutAround(s, n, m);
      AroundEnds(s, s[..n], s[n..m], s[m..]);
      Unstripped(s[n..m]);
    } else if n == m {
      assert s[n..m] == "";
    }
  }

  lemma {:induction false} AroundEnds(s: string, pre: string, c: string, post: string)
    requires Around(s, pre, c, post)
    ensures |c| >= 2 && c[0] == '{' && c[|c| - 1] == '}'
  {}

  lemma {:induction false} StrippedEmpty()
    ensures StripRight(StripLeft("")) == ""
  {}

  lemma {:induction false} Found(num: Numbers, s: string, v: Value)
    returns (pre: string, t: Tree, post: string)
    requires ExtractJson(num, s) == Some(v)
    ensures Holds(num, s, v, pre, t, post)
  {
    hide ParseValue, Valid, Meaning, Render, At, Reads, FirstOpen, CloseEnd, StripLeft, StripRight;
    CoreShape(s);
    var c := Core(s).value;
    if c == "" {
      Empty(num);
    } else {
      pre, post :| Around(s, pre, c, post);
      t := TreeSound(num, c, 0);
      ReadStands(num, c, 0, t);
      NotBlankEnd(c, ParseValue(num, c, 0).pos);
      WholeOnly(c, Render(t));
    }
  }

  lemma {:induction false} Empty(num: Numbers)
    ensures ParseValue(num, "", 0).Raise?
  {}

  // The parser accepts a text exactly when it holds an object of the language, and returns what
  // that object means.
  lemma {:induction false} Extracts(num: Numbers, s: string, v: Value)
    ensures ExtractJson(num, s) == Some(v) <==> exists pre, t, post :: Holds(num, s, v, pre, t, post)
  {
    hide ExtractJson, Holds;
    if ExtractJson(num, s) == Some(v) {
      var pre, t, post := Found(num, s, v);
    }
    if exists pre, t, post :: Holds(num, s, v, pre, t, post) {
      var pre, t, post :| Holds(num, s, v, pre, t, post);
      Accepts(num, s, v, pre, t, post);
    }
  }
}
