// Whatever the parser accepts is a text of the language: from each run that returns, the tree
// that was read is built.
module JsonSound {
  import opened JsonComplete
  import opened JsonParser
  import opened JsonSyntax
  import opened Options

  // ---- leaves ----

  lemma {:induction false} SkippedBlanks(s: string, p: nat) returns (a: string)
    requires p <= |s|
    ensures BlanksAt(s, p, a) && p + |a| == SkipBlanks(s, p)
    decreases |s| - p
  {
    if p < |s| && IsBlank(s[p]) {
      var b := SkippedBlanks(s, p + 1);
      a := [s[p]] + b;
      Split(s, p, [s[p]], b);
    } else {
      a := "";
    }
  }

  lemma {:induction false} PieceAt(s: string, p: nat, x: Piece, rest: seq<Piece>, q: char)
    requires At(s, p, PieceText(x)) && At(s, p + |PieceText(x)|, RenderPieces(rest) + [q])
    ensures At(s, p, RenderPieces([x] + rest) + [q])
    ensures |RenderPieces([x] + rest)| == |PieceText(x)| + |RenderPieces(rest)|
  {
    hide At;
    assert ([x] + rest)[1..] == rest;
    Split(s, p, PieceText(x), RenderPieces(rest) + [q]);
    assert PieceText(x) + (RenderPieces(rest) + [q]) == RenderPieces([x] + rest) + [q];
  }

  lemma {:induction false} CharHere(s: string, p: nat, c: char)
    requires CharAt(s, p, c)
    ensures At(s, p, [c])
  {}

  lemma {:induction false} TwoHere(s: string, p: nat)
    requires p + 1 < |s|
    ensures At(s, p, [s[p], s[p + 1]])
  {}

  lemma {:induction false} StringSound(num: Numbers, s: string, p: nat, q: char, done: string)
    returns (x: seq<Piece>)
    requires p <= |s| && StringFrom(num, s, p, q, done).Return? && IsQuote(q)
    ensures ValidText(Quoted(q, x)) && At(s, p, RenderPieces(x) + [q])
    ensures StringFrom(num, s, p, q, done)
         == Return(ConvertValue(num, done + PiecesText(x)), p + |RenderPieces(x)| + 1)
    decreases |s| - p
  {
    hide ConvertValue, At;
    if s[p] == q {
      x := [];
      CharHere(s, p, q);
      assert RenderPieces(x) + [q] == [q] && done + PiecesText(x) == done;
    } else {
      var h := if s[p] == '\\' then Escape(s[p + 1]) else Raw(s[p]);
      if s[p] == '\\' { TwoHere(s, p); } else { CharHere(s, p, s[p]); }
      var t := StringSound(num, s, p + |PieceText(h)|, q, done + [PieceChar(h)]);
      x := [h] + t;
      PieceAt(s, p, h, t, q);
      assert x[1..] == t;
      assert (done + [PieceChar(h)]) + PiecesText(t) == done + PiecesText(x);
    }
  }

  lemma {:induction false} TripleStep(b: string, c: char, q: char)
    requires ValidText(Triple(q, b)) && Slice([c] + b + [q, q, q], 0, 3) != [q, q, q]
    ensures ValidText(Triple(q, [c] + b))
  {
    var t, u := [c] + b + [q, q, q], b + [q, q, q];
    forall i | 0 <= i < |b| + 1 ensures Slice(t, i, 3) != [q, q, q] {
      if i > 0 { assert Slice(t, i, 3) == Slice(u, i - 1, 3); }
    }
  }

  lemma {:induction false} TripleSound(num: Numbers, s: string, p: nat, q: char, done: string)
    returns (b: string)
    requires p <= |s| && TripleFrom(num, s, p, q, done).Return? && IsQuote(q)
    ensures ValidText(Triple(q, b)) && At(s, p, b + [q, q, q])
    ensures TripleFrom(num, s, p, q, done) == Return(ConvertValue(num, done + b), p + |b| + 3)
    decreases |s| - p
  {
    hide ConvertValue;
    var quotes := [q, q, q];
    if Slice(s, p, 3) == quotes {
      b := "";
      assert s[p] == quotes[0] && s[p + 1] == quotes[1] && s[p + 2] == quotes[2];
      assert b + quotes == quotes && done + b == done;
    } else {
      var t := TripleSound(num, s, p + 1, q, done + [s[p]]);
      b := [s[p]] + t;
      CharHere(s, p, s[p]);
      Split(s, p, [s[p]], t + quotes);
      assert [s[p]] + (t + quotes) == b + quotes;
      assert (done + [s[p]]) + t == done + b;
      SliceAt(s, p, b + quotes, 0);
      TripleStep(t, s[p], q);
    }
  }

  lemma {:induction false} Between(s: string, p: nat, q: nat)
    requires p <= q <= |s|
    ensures At(s, p, s[p..q])
  {}

  lemma {:induction false} WordSound(num: Numbers, s: string, p: nat) returns (w: string)
    requires p < |s| && WordAt(s, p).Some?
    ensures ReadsLeaf(num, s, p, Word(w)) == Some((WordAt(s, p).value.0, p + WordAt(s, p).value.1))
  {
    var n := WordAt(s, p).value.1;
    w := s[p..p + n];
    LowerLength(Slice(s, p, 4));
    LowerLength(Slice(s, p, 5));
    assert w == Slice(s, p, n);
    Between(s, p, p + n);
  }

  lemma {:induction false} QuotedSound(num: Numbers, s: string, p: nat) returns (t: Text)
    requires p < |s| && IsQuote(s[p]) && ParseString(num, s, p).Return?
    ensures t.Quoted? && ValidText(t) && At(s, p, RenderText(t))
    ensures ParseString(num, s, p) == Return(TextValue(num, t), p + |RenderText(t)|)
  {
    hide ConvertValue, At;
    var x := StringSound(num, s, p + 1, s[p], "");
    t := Quoted(s[p], x);
    var body := RenderPieces(x) + [s[p]];
    CharHere(s, p, s[p]);
    Split(s, p, [s[p]], body);
    assert RenderText(t) == [s[p]] + body && "" + PiecesText(x) == PiecesText(x);
  }

  lemma {:induction false} TripleTextSound(num: Numbers, s: string, p: nat) returns (t: Text)
    requires p < |s| && TripleAt(s, p) && TripleFrom(num, s, p + 3, s[p], "").Return?
    ensures ValidText(t) && At(s, p, RenderText(t))
    ensures TripleFrom(num, s, p + 3, s[p], "") == Return(TextValue(num, t), p + |RenderText(t)|)
  {
    hide ConvertValue, TripleFrom;
    NoTriple(s, p);
    var q := s[p];
    var b := TripleSound(num, s, p + 3, q, "");
    t := Triple(q, b);
    var quotes := [q, q, q];
    Between(s, p, p + 3);
    assert s[p..p + 3] == quotes && "" + b == b;
    Split(s, p, quotes, b + quotes);
    assert RenderText(t) == quotes + (b + quotes);
  }

  lemma {:induction false} NumberSound(num: Numbers, s: string, p: nat) returns (d: string)
    requires p < |s| && StartsNumber(s[p]) && ParseNumber(num, s, p).Return?
    ensures var r := ParseNumber(num, s, p); ReadsLeaf(num, s, p, Number(d)) == Some((r.value, r.pos))
  {
    var end := NumberEnd(s, p);
    d := s[p..end];
    Between(s, p, end);
  }

  predicate OpensList(c: char) { c == '{' || c == '[' }

  lemma {:induction false} LeafSound(num: Numbers, s: string, p: nat) returns (t: Tree)
    requires p < |s| && !IsBlank(s[p]) && !OpensList(s[p]) && ParseValue(num, s, p).Return?
    ensures var r := ParseValue(num, s, p); IsLeaf(t) && ReadsLeaf(num, s, p, t) == Some((r.value, r.pos))
  {
    hide At, TextValue, ConvertValue, WordAt, ParseNumber, ParseString, ParseObject, ParseArray, TripleFrom, ValidText;
    hide ValidNumber, RenderText, Lower;
    if TripleAt(s, p) {
      var x := TripleTextSound(num, s, p);
      t := OfText(x);
    } else if IsQuote(s[p]) {
      var x := QuotedSound(num, s, p);
      t := OfText(x);
    } else if WordAt(s, p).Some? {
      var w := WordSound(num, s, p);
      t := Word(w);
    } else {
      var d := NumberSound(num, s, p);
      t := Number(d);
    }
  }

  // ---- trees ----

  lemma {:induction false} TreeSound(num: Numbers, s: string, p: nat) returns (t: Tree)
    requires p <= |s| && (p < |s| ==> !IsBlank(s[p])) && ParseValue(num, s, p).Return?
    ensures var r := ParseValue(num, s, p); Reads(num, s, p, t) == Some((r.value, r.pos))
    ensures s[p] == '{' ==> t.Object?
    decreases |s| - p, 2
  {
    hide At, ReadsElems, ReadsMembers, ElemsFrom, MembersFrom;
    if !OpensList(s[p]) {
      t := LeafSound(num, s, p);
    } else {
      var b := SkippedBlanks(s, p + 1);
      if s[p] == '[' {
        var e := ElemsSound(num, s, p + 1 + |b|, []);
        t := Array(b, e);
      } else {
        var m := MembersSound(num, s, p + 1 + |b|, []);
        t := Object(b, m);
      }
    }
  }

  lemma {:induction false} ElemsSound(num: Numbers, s: string, p: nat, done: seq<Value>) returns (e: Elems)
    requires p <= |s| && (p < |s| ==> !IsBlank(s[p])) && ElemsFrom(num, s, p, done).Return?
    ensures var r := ElemsFrom(num, s, p, done); ReadsElems(num, s, p, e, done) == Some((r.value, r.pos))
    decreases |s| - p, 3
  {
    hide At, Reads, MembersFrom, ParseValue, SkipBlanks;
    if s[p] == ']' {
      e := NoElems;
    } else {
      var v := ParseValue(num, s, p);
      var t := TreeSound(num, s, p);
      var a := SkippedBlanks(s, v.pos);
      var q := v.pos + |a|;
      if s[q] == ',' {
        var c := SkippedBlanks(s, q + 1);
        var rest := ElemsSound(num, s, q + 1 + |c|, done + [v.value]);
        e := MoreElems(t, a, c, rest);
      } else {
        e := LastElem(t, a);
      }
    }
  }

  lemma {:induction false} KeySound(num: Numbers, s: string, p: nat) returns (k: Text, b: string, c: string)
    requires p < |s| && ParseKey(num, s, p).Return?
    ensures var r := ParseKey(num, s, p); ReadsKey(num, s, p, k, b, c) == Some((r.value, r.pos))
    ensures ParseKey(num, s, p).pos < |s| ==> !IsBlank(s[ParseKey(num, s, p).pos])
  {
    hide At, ParseString, SkipBlanks, TextValue, RenderText, ValidText;
    k := QuotedSound(num, s, p);
    b := SkippedBlanks(s, p + |RenderText(k)|);
    c := SkippedBlanks(s, p + |RenderText(k)| + |b| + 1);
  }

  lemma {:induction false} MembersSound(num: Numbers, s: string, p: nat, done: seq<(Value, Value)>)
    returns (m: Members)
    requires p <= |s| && (p < |s| ==> !IsBlank(s[p])) && MembersFrom(num, s, p, done).Return?
    ensures var r := MembersFrom(num, s, p, done); ReadsMembers(num, s, p, m, done) == Some((r.value, r.pos))
    decreases |s| - p, 3
  {
    hide At, Reads, ReadsKey, ElemsFrom, ParseValue, ParseKey, SkipBlanks, Assign;
    if s[p] == '}' {
      m := NoMembers;
    } else {
      var key := ParseKey(num, s, p);
      var k, b, c := KeySound(num, s, p);
      var v := ParseValue(num, s, key.pos);
      var t := TreeSound(num, s, key.pos);
      var a := SkippedBlanks(s, v.pos);
      var q := v.pos + |a|;
      if s[q] == ',' {
        var d := SkippedBlanks(s, q + 1);
        var rest := MembersSound(num, s, q + 1 + |d|, Assign(done, key.value, v.value));
        m := MoreMembers(k, b, c, t, a, d, rest);
      } else {
        m := LastMember(k, b, c, t, a);
      }
    }
  }
}
