// Reading a tree off a text is the same as the tree being valid and its rendering standing there.
module JsonGrammar {
  import opened JsonComplete
  import opened JsonParser
  import opened JsonSyntax
  import opened Options

  // The tree is valid and its rendering stands in s at p.
  predicate Stands(num: Numbers, s: string, p: nat, t: Tree) {
    Valid(num, t) && At(s, p, Render(t))
  }

  predicate ElemsStand(num: Numbers, s: string, p: nat, e: Elems) {
    ValidElems(num, e) && At(s, p, RenderElems(e) + "]")
  }

  predicate MembersStand(num: Numbers, s: string, p: nat, m: Members) {
    ValidMembers(num, m) && At(s, p, RenderMembers(m) + "}")
  }

  lemma {:induction false} One(s: string, p: nat, c: char)
    ensures At(s, p, [c]) <==> CharAt(s, p, c)
  {
    if At(s, p, [c]) { Index(s, p, [c], 0); }
  }

  // Two texts next to each other, the second at q.
  lemma {:induction false} Join(s: string, p: nat, a: string, b: string, q: nat)
    requires q == p + |a|
    ensures At(s, p, a + b) <==> At(s, p, a) && At(s, q, b)
  {
    Split(s, p, a, b);
  }

  // A value, blanks at q, one character at r.
  lemma {:induction false} SplitAfter(s: string, p: nat, v: string, a: string, c: char, q: nat, r: nat)
    requires q == p + |v| && r == q + |a|
    ensures At(s, p, v + a + [c]) <==> At(s, p, v) && At(s, q, a) && CharAt(s, r, c)
  {
    Join(s, p, v + a, [c], r);
    Join(s, p, v, a, q);
    One(s, r, c);
  }

  // A head, blanks at h, a tail at n and one character at the end.
  lemma {:induction false} TailAt(s: string, p: nat, head: string, d: string, tail: string, c: char, h: nat, n: nat)
    requires h == p + |head| && n == h + |d|
    ensures At(s, p, head + d + tail + [c]) <==> At(s, p, head) && At(s, h, d) && At(s, n, tail + [c])
  {
    var end := n + |tail|;
    SplitAfter(s, p, head + d, tail, c, n, end);
    Join(s, p, head, d, h);
    Join(s, n, tail, [c], end);
    One(s, end, c);
  }

  // ---- a standing tree is read ----

  lemma {:induction false} StandingRead(num: Numbers, s: string, p: nat, t: Tree)
    requires Stands(num, s, p, t)
    ensures Reads(num, s, p, t) == Some((Meaning(num, t), p + |Render(t)|))
    decreases t, 1
  {
    hide At, RenderElems, RenderMembers, ValidElems, ValidMembers, ElemsMeaning, MembersMeaning;
    hide ReadsElems, ReadsMembers;
    match t
    case Array(b, e) =>
      ArrayAt(s, p, b, e);
      ElemsRead(num, s, p + 1 + |b|, e, []);
    case Object(b, m) =>
      ObjectAt(s, p, b, m);
      MembersRead(num, s, p + 1 + |b|, m, []);
    case _ =>
  }

  lemma {:induction false} ArrayAt(s: string, p: nat, b: string, e: Elems)
    ensures At(s, p, Render(Array(b, e)))
       <==> CharAt(s, p, '[') && At(s, p + 1, b) && At(s, p + 1 + |b|, RenderElems(e) + "]")
    ensures |Render(Array(b, e))| == 1 + |b| + |RenderElems(e)| + 1
  {
    hide At;
    var q, r, body := p + 1 + |b|, p + 1 + |b| + |RenderElems(e)|, RenderElems(e);
    SplitAfter(s, p, "[" + b, body, ']', q, r);
    Join(s, p, "[", b, p + 1);
    Join(s, q, body, "]", r);
    One(s, p, '[');
    One(s, r, ']');
  }

  lemma {:induction false} ObjectAt(s: string, p: nat, b: string, m: Members)
    ensures At(s, p, Render(Object(b, m)))
       <==> CharAt(s, p, '{') && At(s, p + 1, b) && At(s, p + 1 + |b|, RenderMembers(m) + "}")
    ensures |Render(Object(b, m))| == 1 + |b| + |RenderMembers(m)| + 1
  {
    hide At;
    var q, r, body := p + 1 + |b|, p + 1 + |b| + |RenderMembers(m)|, RenderMembers(m);
    SplitAfter(s, p, "{" + b, body, '}', q, r);
    Join(s, p, "{", b, p + 1);
    Join(s, q, body, "}", r);
    One(s, p, '{');
    One(s, r, '}');
  }

  lemma {:induction false} LastElemAt(s: string, p: nat, v: Tree, a: string, q: nat, r: nat)
    requires q == p + |Render(v)| && r == q + |a|
    ensures At(s, p, RenderElems(LastElem(v, a)) + "]")
       <==> At(s, p, Render(v)) && At(s, q, a) && CharAt(s, r, ']')
    ensures p + |RenderElems(LastElem(v, a))| == r
  {
    hide At;
    SplitAfter(s, p, Render(v), a, ']', q, r);
  }

  lemma {:induction false} MoreElemsAt(s: string, p: nat, v: Tree, a: string, c: string, rest: Elems,
                                       q: nat, r: nat, n: nat)
    requires q == p + |Render(v)| && r == q + |a| && n == r + 1 + |c|
    ensures At(s, p, RenderElems(MoreElems(v, a, c, rest)) + "]")
       <==> && At(s, p, Render(v)) && At(s, q, a) && CharAt(s, r, ',') && At(s, r + 1, c)
            && At(s, n, RenderElems(rest) + "]")
    ensures p + |RenderElems(MoreElems(v, a, c, rest))| == n + |RenderElems(rest)|
  {
    hide At;
    TailAt(s, p, Render(v) + a + ",", c, RenderElems(rest), ']', r + 1, n);
    SplitAfter(s, p, Render(v), a, ',', q, r);
  }

  // The last case of ReadsElems, with the outcome of each of its steps named.
  lemma {:induction false} MoreElemsStep(num: Numbers, s: string, p: nat, e: Elems, done: seq<Value>,
                                         x: (Value, nat), n: nat, r: (Value, nat))
    requires e.MoreElems? && Reads(num, s, p, e.elem) == Some(x) && BlanksAt(s, x.1, e.after)
    requires CharAt(s, x.1 + |e.after|, ',') && BlanksAt(s, x.1 + |e.after| + 1, e.afterComma)
    requires n == x.1 + |e.after| + 1 + |e.afterComma|
    requires ReadsElems(num, s, n, e.rest, done + [x.0]) == Some(r)
    ensures ReadsElems(num, s, p, e, done) == Some(r)
  {
    hide At, Reads;
  }

  lemma {:induction false} ElemsRead(num: Numbers, s: string, p: nat, e: Elems, done: seq<Value>)
    requires ElemsStand(num, s, p, e)
    ensures ReadsElems(num, s, p, e, done) == Some((List(ElemsMeaning(num, e, done)), p + |RenderElems(e)| + 1))
    decreases e, 2
  {
    match e
    case NoElems =>
      assert RenderElems(e) + "]" == "]";
      One(s, p, ']');
    case LastElem(v, a) =>
      var q := p + |Render(v)|;
      LastElemAt(s, p, v, a, q, q + |a|);
      StandingRead(num, s, p, v);
    case MoreElems(v, a, c, rest) => MoreElemsStanding(num, s, p, e, done);
  }

  lemma {:induction false} MoreElemsStanding(num: Numbers, s: string, p: nat, e: Elems, done: seq<Value>)
    requires e.MoreElems? && ElemsStand(num, s, p, e)
    ensures ReadsElems(num, s, p, e, done) == Some((List(ElemsMeaning(num, e, done)), p + |RenderElems(e)| + 1))
    decreases e, 1
  {
    hide At, Valid, Render, Meaning, Reads;
    var MoreElems(v, a, c, rest) := e;
    var q := p + |Render(v)|;
    var r := q + |a|;
    var n := r + 1 + |c|;
    MoreElemsAt(s, p, v, a, c, rest, q, r, n);
    StandingRead(num, s, p, v);
    var done' := done + [Meaning(num, v)];
    ElemsRead(num, s, n, rest, done');
    MoreElemsStep(num, s, p, e, done, (Meaning(num, v), q), n,
                  (List(ElemsMeaning(num, rest, done')), n + |RenderElems(rest)| + 1));
  }

  function KeyText(k: Text, b: string, c: string): string { RenderText(k) + b + ":" + c }

  lemma {:induction false} KeyAt(s: string, p: nat, k: Text, b: string, c: string, q: nat, r: nat)
    requires q == p + |RenderText(k)| && r == q + |b|
    ensures At(s, p, KeyText(k, b, c))
       <==> At(s, p, RenderText(k)) && At(s, q, b) && CharAt(s, r, ':') && At(s, r + 1, c)
    ensures p + |KeyText(k, b, c)| == r + 1 + |c|
  {
    hide At;
    Join(s, p, RenderText(k) + b + ":", c, r + 1);
    SplitAfter(s, p, RenderText(k), b, ':', q, r);
  }

  lemma {:induction false} KeyRead(num: Numbers, s: string, p: nat, k: Text, b: string, c: string)
    requires k.Quoted? && ValidText(k) && Blanks(b) && Blanks(c) && At(s, p, KeyText(k, b, c))
    ensures ReadsKey(num, s, p, k, b, c) == Some((TextValue(num, k), p + |KeyText(k, b, c)|))
  {
    hide At;
    KeyAt(s, p, k, b, c, p + |RenderText(k)|, p + |RenderText(k)| + |b|);
  }

  // A key, a value, blanks, one character.
  lemma {:induction false} MemberAt(s: string, p: nat, key: string, v: string, a: string, c: char,
                                    o: nat, q: nat, r: nat)
    requires o == p + |key| && q == o + |v| && r == q + |a|
    ensures At(s, p, key + v + a + [c]) <==> At(s, p, key) && At(s, o, v) && At(s, q, a) && CharAt(s, r, c)
  {
    SplitAfter(s, p, key + v, a, c, q, r);
    Join(s, p, key, v, o);
  }

  lemma {:induction false} LastMemberAt(s: string, p: nat, k: Text, b: string, c: string, v: Tree, a: string,
                                        o: nat, q: nat, r: nat)
    requires o == p + |KeyText(k, b, c)| && q == o + |Render(v)| && r == q + |a|
    ensures At(s, p, RenderMembers(LastMember(k, b, c, v, a)) + "}")
       <==> At(s, p, KeyText(k, b, c)) && At(s, o, Render(v)) && At(s, q, a) && CharAt(s, r, '}')
    ensures p + |RenderMembers(LastMember(k, b, c, v, a))| == r
  {
    hide At;
    MemberAt(s, p, KeyText(k, b, c), Render(v), a, '}', o, q, r);
  }

  lemma {:induction false} MoreMembersAt(s: string, p: nat, k: Text, b: string, c: string, v: Tree, a: string,
                                         d: string, rest: Members, o: nat, q: nat, r: nat, n: nat)
    requires o == p + |KeyText(k, b, c)| && q == o + |Render(v)| && r == q + |a| && n == r + 1 + |d|
    ensures At(s, p, RenderMembers(MoreMembers(k, b, c, v, a, d, rest)) + "}")
       <==> && At(s, p, KeyText(k, b, c)) && At(s, o, Render(v)) && At(s, q, a) && CharAt(s, r, ',')
            && At(s, r + 1, d) && At(s, n, RenderMembers(rest) + "}")
    ensures p + |RenderMembers(MoreMembers(k, b, c, v, a, d, rest))| == n + |RenderMembers(rest)|
  {
    hide At;
    TailAt(s, p, KeyText(k, b, c) + Render(v) + a + ",", d, RenderMembers(rest), '}', r + 1, n);
    MemberAt(s, p, KeyText(k, b, c), Render(v), a, ',', o, q, r);
  }

  // The last case of ReadsMembers, with the outcome of each of its steps named.
  lemma {:induction false} MoreMembersStep(num: Numbers, s: string, p: nat, m: Members, done: seq<(Value, Value)>,
                                           y: (Value, nat), x: (Value, nat), n: nat, r: (Value, nat))
    requires m.MoreMembers? && ReadsKey(num, s, p, m.key, m.beforeColon, m.afterColon) == Some(y)
    requires Reads(num, s, y.1, m.value) == Some(x) && BlanksAt(s, x.1, m.after)
    requires CharAt(s, x.1 + |m.after|, ',') && BlanksAt(s, x.1 + |m.after| + 1, m.afterComma)
    requires n == x.1 + |m.after| + 1 + |m.afterComma|
    requires ReadsMembers(num, s, n, m.rest, Assign(done, y.0, x.0)) == Some(r)
    ensures ReadsMembers(num, s, p, m, done) == Some(r)
  {
    hide At, TextValue, Assign, RenderText, Reads, ReadsKey;
  }

  lemma {:induction false} MembersRead(num: Numbers, s: string, p: nat, m: Members, done: seq<(Value, Value)>)
    requires MembersStand(num, s, p, m)
    ensures ReadsMembers(num, s, p, m, done)
         == Some((Dict(MembersMeaning(num, m, done)), p + |RenderMembers(m)| + 1))
    decreases m, 2
  {
    hide At, TextValue, Assign, RenderText, Valid, Render, Meaning, Reads, ReadsKey;
    match m
    case NoMembers =>
      assert RenderMembers(m) + "}" == "}";
      One(s, p, '}');
    case LastMember(k, b, c, v, a) =>
      var o := p + |KeyText(k, b, c)|;
      var q := o + |Render(v)|;
      LastMemberAt(s, p, k, b, c, v, a, o, q, q + |a|);
      KeyRead(num, s, p, k, b, c);
      StandingRead(num, s, o, v);
    case MoreMembers(k, b, c, v, a, d, rest) => MoreMembersStanding(num, s, p, m, done);
  }

  lemma {:induction false} MoreMembersStanding(num: Numbers, s: string, p: nat, m: Members,
                                               done: seq<(Value, Value)>)
    requires m.MoreMembers? && MembersStand(num, s, p, m)
    ensures ReadsMembers(num, s, p, m, done)
         == Some((Dict(MembersMeaning(num, m, done)), p + |RenderMembers(m)| + 1))
    decreases m, 1
  {
    hide At, TextValue, Assign, RenderText, Valid, Render, Meaning, Reads, ReadsKey;
    var MoreMembers(k, b, c, v, a, d, rest) := m;
    var o := p + |KeyText(k, b, c)|;
    var q := o + |Render(v)|;
    var r := q + |a|;
    var n := r + 1 + |d|;
    MoreMembersAt(s, p, k, b, c, v, a, d, rest, o, q, r, n);
    KeyRead(num, s, p, k, b, c);
    StandingRead(num, s, o, v);
    var done' := Assign(done, TextValue(num, k), Meaning(num, v));
    MembersRead(num, s, n, rest, done');
    MoreMembersStep(num, s, p, m, done, (TextValue(num, k), o), (Meaning(num, v), q), n,
                    (Dict(MembersMeaning(num, rest, done')), n + |RenderMembers(rest)| + 1));
  }

  // ---- what is read stands ----

  lemma {:induction false} ReadStands(num: Numbers, s: string, p: nat, t: Tree)
    requires Reads(num, s, p, t).Some?
    ensures Stands(num, s, p, t)
    ensures Reads(num, s, p, t) == Some((Meaning(num, t), p + |Render(t)|))
    decreases t, 1
  {
    hide At, RenderElems, RenderMembers, ReadsElems, ReadsMembers, ValidElems, ValidMembers, Meaning;
    match t {
      case Array(b, e) =>
        ArrayAt(s, p, b, e);
        ReadElemsStand(num, s, p + 1 + |b|, e, []);
      case Object(b, m) =>
        ObjectAt(s, p, b, m);
        ReadMembersStand(num, s, p + 1 + |b|, m, []);
      case _ =>
    }
    StandingRead(num, s, p, t);
  }

  lemma {:induction false} ReadElemsStand(num: Numbers, s: string, p: nat, e: Elems, done: seq<Value>)
    requires ReadsElems(num, s, p, e, done).Some?
    ensures ElemsStand(num, s, p, e)
    decreases e, 1
  {
    hide At, Reads, Valid, Render, Meaning;
    match e
    case NoElems =>
      assert RenderElems(e) + "]" == "]";
      One(s, p, ']');
    case LastElem(v, a) =>
      ReadStands(num, s, p, v);
      var q := p + |Render(v)|;
      LastElemAt(s, p, v, a, q, q + |a|);
    case MoreElems(v, a, c, rest) =>
      ReadStands(num, s, p, v);
      var q := p + |Render(v)|;
      var r := q + |a|;
      ReadElemsStand(num, s, r + 1 + |c|, rest, done + [Meaning(num, v)]);
      MoreElemsAt(s, p, v, a, c, rest, q, r, r + 1 + |c|);
  }

  lemma {:induction false} ReadKeyStands(num: Numbers, s: string, p: nat, k: Text, b: string, c: string)
    requires ReadsKey(num, s, p, k, b, c).Some?
    ensures k.Quoted? && ValidText(k) && Blanks(b) && Blanks(c) && At(s, p, KeyText(k, b, c))
    ensures ReadsKey(num, s, p, k, b, c) == Some((TextValue(num, k), p + |KeyText(k, b, c)|))
  {
    hide At, RenderText, TextValue, ValidText;
    KeyAt(s, p, k, b, c, p + |RenderText(k)|, p + |RenderText(k)| + |b|);
  }

  lemma {:induction false} ReadMembersStand(num: Numbers, s: string, p: nat, m: Members,
                                            done: seq<(Value, Value)>)
    requires ReadsMembers(num, s, p, m, done).Some?
    ensures MembersStand(num, s, p, m)
    decreases m, 1
  {
    hide At, Reads, ReadsKey, Valid, Render, Meaning, TextValue, RenderText, Assign;
    match m
    case NoMembers =>
      assert RenderMembers(m) + "}" == "}";
      One(s, p, '}');
    case LastMember(k, b, c, v, a) =>
      ReadKeyStands(num, s, p, k, b, c);
      var o := p + |KeyText(k, b, c)|;
      ReadStands(num, s, o, v);
      var q := o + |Render(v)|;
      LastMemberAt(s, p, k, b, c, v, a, o, q, q + |a|);
    case MoreMembers(k, b, c, v, a, d, rest) =>
      ReadKeyStands(num, s, p, k, b, c);
      var o := p + |KeyText(k, b, c)|;
      ReadStands(num, s, o, v);
      var q := o + |Render(v)|;
      var r := q + |a|;
      ReadMembersStand(num, s, r + 1 + |d|, rest, Assign(done, TextValue(num, k), Meaning(num, v)));
      MoreMembersAt(s, p, k, b, c, v, a, d, rest, o, q, r, r + 1 + |d|);
  }
}
