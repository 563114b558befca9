// Every text of the language is parsed to what it means.
module JsonComplete {
  import opened JsonParser
  import opened JsonSyntax
  import opened Options

  // ---- a tree standing in a text ----

  // Marks the indices at which a proof looks into a text: At is used only where one is marked.
  predicate Nth(i: int) { true }

  // t stands in s at position p.
  predicate At(s: string, p: nat, t: string) {
    p + |t| <= |s| && forall i {:trigger Nth(i)} :: 0 <= i < |t| && Nth(i) ==> s[p + i] == t[i]
  }

  predicate CharAt(s: string, p: nat, c: char) {
    p < |s| && s[p] == c
  }

  predicate BlanksAt(s: string, p: nat, w: string) {
    Blanks(w) && At(s, p, w)
  }

  // Reading a tree off a text: what it means and where it ends, if the tree is valid and its
  // rendering stands at position p.
  function Reads(num: Numbers, s: string, p: nat, t: Tree): Option<(Value, nat)>
    decreases t
  {
    match t
    case Array(b, e) =>
      if CharAt(s, p, '[') && BlanksAt(s, p + 1, b) then ReadsElems(num, s, p + 1 + |b|, e, []) else None
    case Object(b, m) =>
      if CharAt(s, p, '{') && BlanksAt(s, p + 1, b) then ReadsMembers(num, s, p + 1 + |b|, m, []) else None
    case _ => ReadsLeaf(num, s, p, t)
  }

  predicate IsLeaf(t: Tree) { t.OfText? || t.Word? || t.Number? }

  function ReadsLeaf(num: Numbers, s: string, p: nat, t: Tree): Option<(Value, nat)>
    requires IsLeaf(t)
  {
    if Valid(num, t) && At(s, p, Render(t)) then Some((Meaning(num, t), p + |Render(t)|)) else None
  }

  // Behind a value: blanks, then the given character; returns the position after it.
  function ReadsAfter(s: string, p: nat, a: string, c: char): Option<nat> {
    if BlanksAt(s, p, a) && CharAt(s, p + |a|, c) then Some(p + |a| + 1) else None
  }

  function ReadsElems(num: Numbers, s: string, p: nat, e: Elems, done: seq<Value>): Option<(Value, nat)>
    decreases e
  {
    match e
    case NoElems => if CharAt(s, p, ']') then Some((List(done), p + 1)) else None
    case LastElem(v, a) =>
      (match Reads(num, s, p, v)
       case None => None
       case Some(x) =>
         match ReadsAfter(s, x.1, a, ']') case None => None case Some(q) => Some((List(done + [x.0]), q)))
    case MoreElems(v, a, c, rest) =>
      match Reads(num, s, p, v)
      case None => None
      case Some(x) =>
        match ReadsAfter(s, x.1, a, ',')
        case None => None
        case Some(q) =>
          if BlanksAt(s, q, c) then ReadsElems(num, s, q + |c|, rest, done + [x.0]) else None
  }

  function ReadsKey(num: Numbers, s: string, p: nat, k: Text, b: string, c: string): Option<(Value, nat)> {
    if k.Quoted? && ValidText(k) && At(s, p, RenderText(k)) then
      match ReadsAfter(s, p + |RenderText(k)|, b, ':')
      case None => None
      case Some(q) => if BlanksAt(s, q, c) then Some((TextValue(num, k), q + |c|)) else None
    else None
  }

  function ReadsMembers(num: Numbers, s: string, p: nat, m: Members, done: seq<(Value, Value)>): Option<(Value, nat)>
    decreases m
  {
    match m
    case NoMembers => if CharAt(s, p, '}') then Some((Dict(done), p + 1)) else None
    case LastMember(k, b, c, v, a) =>
      (match ReadsKey(num, s, p, k, b, c)
       case None => None
       case Some(y) =>
         match Reads(num, s, y.1, v)
         case None => None
         case Some(x) =>
           match ReadsAfter(s, x.1, a, '}')
           case None => None
           case Some(q) => Some((Dict(Assign(done, y.0, x.0)), q)))
    case MoreMembers(k, b, c, v, a, d, rest) =>
      match ReadsKey(num, s, p, k, b, c)
      case None => None
      case Some(y) =>
        match Reads(num, s, y.1, v)
        case None => None
        case Some(x) =>
          match ReadsAfter(s, x.1, a, ',')
          case None => None
          case Some(q) =>
            if BlanksAt(s, q, d) then
              ReadsMembers(num, s, q + |d|, rest, Assign(done, y.0, x.0))
            else None
  }

  // ---- leaves ----

  // What can stand behind a value.
  predicate Follows(s: string, p: nat) {
    p < |s| ==> IsBlank(s[p]) || s[p] == ',' || s[p] == ']' || s[p] == '}'
  }

  lemma {:induction false} Split(s: string, p: nat, a: string, b: string)
    ensures At(s, p, a + b) <==> At(s, p, a) && At(s, p + |a|, b)
  {
    var ab := a + b;
    if At(s, p, ab) {
      forall i | 0 <= i < |a| ensures s[p + i] == a[i] { assert Nth(i) && ab[i] == a[i]; }
      forall i | 0 <= i < |b| ensures s[p + |a| + i] == b[i] {
        assert Nth(|a| + i) && ab[|a| + i] == b[i];
      }
    }
    if At(s, p, a) && At(s, p + |a|, b) {
      forall i | 0 <= i < |ab| ensures s[p + i] == ab[i] {
        assert Nth(i) && Nth(i - |a|);
      }
    }
  }

  lemma {:induction false} Index(s: string, p: nat, t: string, i: nat)
    requires At(s, p, t) && i < |t|
    ensures p + |t| <= |s| && s[p + i] == t[i]
  {
    assert Nth(i);
  }

  lemma {:induction false} Cut(s: string, p: nat, t: string)
    requires At(s, p, t)
    ensures s[p..p + |t|] == t
  {
    forall i | 0 <= i < |t| ensures s[p + i] == t[i] { Index(s, p, t, i); }
  }

  lemma {:induction false} SkipsBlanks(s: string, p: nat, w: string)
    requires Blanks(w) && At(s, p, w)
    requires p + |w| < |s| ==> !IsBlank(s[p + |w|])
    ensures SkipBlanks(s, p) == p + |w|
    decreases |w|
  {
    if w != "" {
      Index(s, p, w, 0);
      assert w == [w[0]] + w[1..];
      Split(s, p, [w[0]], w[1..]);
      SkipsBlanks(s, p + 1, w[1..]);
    }
  }

  function PieceText(x: Piece): string {
    match x case Raw(c) => [c] case Escape(c) => ['\\', c]
  }

  function PieceChar(x: Piece): char {
    match x case Raw(c) => c case Escape(c) => Escaped(c)
  }

  lemma {:induction false} StringTurn(num: Numbers, s: string, p: nat, q: char, x: Piece, done: string)
    requires At(s, p, PieceText(x)) && IsQuote(q) && (x.Raw? ==> x.c != q && x.c != '\\')
    ensures StringFrom(num, s, p, q, done) == StringFrom(num, s, p + |PieceText(x)|, q, done + [PieceChar(x)])
  {
    hide ConvertValue;
    Index(s, p, PieceText(x), 0);
    if x.Escape? { Index(s, p, PieceText(x), 1); }
  }

  lemma {:induction false} StringParsed(num: Numbers, s: string, p: nat, q: char, x: seq<Piece>, done: string)
    requires ValidText(Quoted(q, x)) && At(s, p, RenderPieces(x) + [q])
    ensures StringFrom(num, s, p, q, done)
         == Return(ConvertValue(num, done + PiecesText(x)), p + |RenderPieces(x)| + 1)
    decreases |x|
  {
    hide ConvertValue, At;
    Split(s, p, RenderPieces(x), [q]);
    if x == [] {
      Index(s, p, [q], 0);
      assert done + PiecesText(x) == done;
    } else {
      var head, tail := PieceText(x[0]), RenderPieces(x[1..]);
      assert RenderPieces(x) == head + tail;
      Split(s, p, head, tail);
      Split(s, p + |head|, tail, [q]);
      StringTurn(num, s, p, q, x[0], done);
      StringParsed(num, s, p + |head|, q, x[1..], done + [PieceChar(x[0])]);
      assert (done + [PieceChar(x[0])]) + PiecesText(x[1..]) == done + PiecesText(x);
    }
  }

  lemma {:induction false} SliceAt(s: string, p: nat, t: string, k: nat)
    requires At(s, p, t) && k + 3 <= |t|
    ensures Slice(s, p + k, 3) == Slice(t, k, 3)
  {
    Index(s, p, t, k);
    Index(s, p, t, k + 1);
    Index(s, p, t, k + 2);
    assert Slice(t, k, 3) == [t[k], t[k + 1], t[k + 2]];
    assert Slice(s, p + k, 3) == [s[p + k], s[p + k + 1], s[p + k + 2]];
  }

  lemma {:induction false} TripleParsed(num: Numbers, s: string, p: nat, q: char, b: string, k: nat)
    requires ValidText(Triple(q, b)) && At(s, p, b + [q, q, q]) && k <= |b|
    ensures TripleFrom(num, s, p + k, q, b[..k]) == Return(ConvertValue(num, b), p + |b| + 3)
    decreases |b| - k
  {
    var t := b + [q, q, q];
    SliceAt(s, p, t, k);
    if k < |b| {
      Index(s, p, t, k);
      assert b[..k] + [b[k]] == b[..k + 1];
      TripleParsed(num, s, p, q, b, k + 1);
    } else {
      assert b[..k] == b && Slice(t, k, 3) == [q, q, q];
    }
  }

  lemma {:induction false} NumberSpan(s: string, p: nat, d: string)
    requires At(s, p, d) && (forall i :: 0 <= i < |d| ==> InNumber(d[i]))
    requires p + |d| < |s| ==> !InNumber(s[p + |d|])
    ensures NumberEnd(s, p) == p + |d|
    decreases |d|
  {
    if d != "" {
      Index(s, p, d, 0);
      assert d == [d[0]] + d[1..];
      Split(s, p, [d[0]], d[1..]);
      NumberSpan(s, p + 1, d[1..]);
    }
  }

  // ---- the dispatch of parse_value ----

  lemma {:induction false} LowerAt(s: string, i: nat)
    requires i < |s|
    ensures |Lower(s)| == |s| && Lower(s)[i] == LowerChar(s[i])
  {
    LowerLength(s);
    if i > 0 { LowerAt(s[1..], i - 1); }
  }

  // Only a letter t, f or n begins one of the three words.
  lemma {:induction false} NotWord(s: string, p: nat)
    requires p < |s|
    ensures LowerChar(s[p]) != 't' && LowerChar(s[p]) != 'f' && LowerChar(s[p]) != 'n' ==>
              WordAt(s, p) == None
  {
    LowerAt(Slice(s, p, 4), 0);
    LowerAt(Slice(s, p, 5), 0);
  }

  lemma {:induction false} NoTriple(s: string, p: nat)
    requires p < |s| && TripleAt(s, p)
    ensures p + 3 <= |s| && IsQuote(s[p]) && s[p] == s[p + 1] == s[p + 2]
    ensures Slice(s, p, 3) == [s[p], s[p], s[p]]
  {
    var t := Slice(s, p, 3);
    assert |t| == 3 && t[0] == s[p] && t[1] == s[p + 1] && t[2] == s[p + 2];
  }

  lemma {:induction false} QuotedParsed(num: Numbers, s: string, p: nat, q: char, x: seq<Piece>)
    requires ValidText(Quoted(q, x)) && At(s, p, RenderText(Quoted(q, x)))
    ensures p < |s| && s[p] == q
    ensures ParseString(num, s, p)
         == Return(TextValue(num, Quoted(q, x)), p + |RenderText(Quoted(q, x))|)
    ensures Follows(s, p + |RenderText(Quoted(q, x))|) ==> !TripleAt(s, p)
  {
    hide StringFrom, RenderPieces, PiecesText, TripleAt, ValidText, ConvertValue, At;
    var body := RenderPieces(x) + [q];
    assert RenderText(Quoted(q, x)) == [q] + body;
    Split(s, p, [q], body);
    Index(s, p, [q], 0);
    StringParsed(num, s, p + 1, q, x, "");
    assert "" + PiecesText(x) == PiecesText(x);
    if TripleAt(s, p) { NotTriple(s, p, q, x); }
  }

  lemma {:induction false} FirstOfPieces(q: char, x: seq<Piece>)
    requires ValidText(Quoted(q, x))
    ensures IsQuote(q)
    ensures if x == [] then RenderPieces(x) == "" else RenderPieces(x) != "" && RenderPieces(x)[0] != q
  {}

  // A string that opens with three quotes is empty and followed by one more.
  lemma {:induction false} NotTriple(s: string, p: nat, q: char, x: seq<Piece>)
    requires ValidText(Quoted(q, x)) && p < |s| && s[p] == q && At(s, p + 1, RenderPieces(x) + [q])
    requires TripleAt(s, p)
    ensures !Follows(s, p + |RenderText(Quoted(q, x))|)
  {
    hide RenderPieces, TripleAt, ValidText, At;
    NoTriple(s, p);
    FirstOfPieces(q, x);
    Index(s, p + 1, RenderPieces(x) + [q], 0);
  }

  lemma {:induction false} TripleTextParsed(num: Numbers, s: string, p: nat, q: char, t: string)
    requires ValidText(Triple(q, t)) && At(s, p, RenderText(Triple(q, t)))
    ensures p + 3 <= |s| && s[p] == q && TripleAt(s, p)
    ensures TripleFrom(num, s, p + 3, q, "") == Return(ConvertValue(num, t), p + |t| + 6)
  {
    hide TripleFrom, ConvertValue, At, ValidText;
    var quotes := [q, q, q];
    assert RenderText(Triple(q, t)) == quotes + (t + quotes);
    Split(s, p, quotes, t + quotes);
    Index(s, p, quotes, 0);
    SliceAt(s, p, quotes, 0);
    QuoteOf(Triple(q, t));
    TripleParsed(num, s, p + 3, q, t, 0);
  }

  lemma {:induction false} QuoteOf(t: Text)
    requires ValidText(t)
    ensures IsQuote(t.quote)
  {}

  lemma {:induction false} TextParsed(num: Numbers, s: string, p: nat, t: Text)
    requires ValidText(t) && At(s, p, RenderText(t)) && Follows(s, p + |RenderText(t)|)
    ensures ParseValue(num, s, p) == Return(TextValue(num, t), p + |RenderText(t)|)
  {
    match t
    case Quoted(q, x) => QuotedParsed(num, s, p, q, x);
    case Triple(q, b) => TripleTextParsed(num, s, p, q, b);
  }

  lemma {:induction false} WordFound(num: Numbers, s: string, p: nat, w: string)
    requires Valid(num, Word(w)) && At(s, p, w)
    ensures p < |s| && WordAt(s, p) == Some((Meaning(num, Word(w)), |w|))
    ensures !IsBlank(s[p]) && !IsQuote(s[p])
    ensures s[p] != '{' && s[p] != '}' && s[p] != '[' && s[p] != ']'
  {
    LowerAt(w, 0);
    Index(s, p, w, 0);
    var four, five := Slice(s, p, 4), Slice(s, p, 5);
    LowerAt(four, 0);
    LowerAt(five, 0);
    Cut(s, p, w);
    assert |w| == 4 ==> four == w;
    assert |w| == 5 ==> five == w;
  }

  lemma {:induction false} WordParsed(num: Numbers, s: string, p: nat, w: string)
    requires Valid(num, Word(w)) && At(s, p, w)
    ensures ParseValue(num, s, p) == Return(Meaning(num, Word(w)), p + |w|)
  {
    WordFound(num, s, p, w);
    if TripleAt(s, p) { NoTriple(s, p); }
  }

  lemma {:induction false} NoTripleAt(s: string, p: nat)
    requires p < |s| && !IsQuote(s[p])
    ensures !TripleAt(s, p)
  {
    if TripleAt(s, p) { NoTriple(s, p); }
  }

  lemma {:induction false} NumberTurn(num: Numbers, s: string, p: nat)
    requires p < |s| && StartsNumber(s[p])
    ensures ParseValue(num, s, p) == ParseNumber(num, s, p)
  {
    hide ParseNumber, WordAt, TripleAt, ParseObject, ParseArray, ParseString, TripleFrom;
    NotWord(s, p);
    NoTripleAt(s, p);
  }

  lemma {:induction false} DigitsParsed(num: Numbers, s: string, p: nat, d: string)
    requires ValidNumber(num, d) && At(s, p, d) && Follows(s, p + |d|)
    ensures p < |s| && StartsNumber(s[p])
    ensures ParseNumber(num, s, p) == Return(ToNumber(num, d).value, p + |d|)
  {
    Index(s, p, d, 0);
    NumberSpan(s, p, d);
    Cut(s, p, d);
  }

  lemma {:induction false} NumberParsed(num: Numbers, s: string, p: nat, d: string)
    requires Valid(num, Number(d)) && At(s, p, d) && Follows(s, p + |d|)
    ensures ParseValue(num, s, p) == Return(Meaning(num, Number(d)), p + |d|)
  {
    DigitsParsed(num, s, p, d);
    NumberTurn(num, s, p);
  }

  // ---- trees ----

  lemma {:induction false} LeafParsed(num: Numbers, s: string, p: nat, t: Tree)
    requires IsLeaf(t) && ReadsLeaf(num, s, p, t).Some? && Follows(s, ReadsLeaf(num, s, p, t).value.1)
    ensures var r := ReadsLeaf(num, s, p, t).value;
      p < r.1 <= |s| && ParseValue(num, s, p) == Return(r.0, r.1)
    ensures !IsBlank(s[p]) && s[p] != ']' && s[p] != '}'
  {
    hide ParseValue, At;
    LeafBegins(num, s, p, t);
    match t
    case OfText(x) => TextParsed(num, s, p, x);
    case Word(w) => WordParsed(num, s, p, w);
    case Number(d) => NumberParsed(num, s, p, d);
  }

  lemma {:induction false} LeafBegins(num: Numbers, s: string, p: nat, t: Tree)
    requires IsLeaf(t) && Valid(num, t) && At(s, p, Render(t))
    ensures |Render(t)| >= 1 && p < |s| && !IsBlank(s[p]) && s[p] != ']' && s[p] != '}'
  {
    match t
    case Word(w) => WordFound(num, s, p, w);
    case Number(d) => Index(s, p, d, 0);
    case OfText(x) => Index(s, p, RenderText(x), 0);
  }

  // The blanks behind a value and the character that follows them.
  lemma {:induction false} AfterItem(s: string, q: nat, a: string, c: char)
    requires ReadsAfter(s, q, a, c).Some?
    requires c == ',' || c == ']' || c == '}' || c == ':'
    ensures c != ':' ==> Follows(s, q)
    ensures q <= |s| && SkipBlanks(s, q) == q + |a| && CharAt(s, q + |a|, c)
    ensures ReadsAfter(s, q, a, c) == Some(q + |a| + 1)
  {
    if a != "" { Index(s, q, a, 0); }
    SkipsBlanks(s, q, a);
  }

  // The turns of the two loops, in terms of the positions their calls return.

  lemma {:induction false} ArrayTurn(num: Numbers, s: string, p: nat, q: nat)
    requires CharAt(s, p, '[') && SkipBlanks(s, p + 1) == q
    ensures ParseValue(num, s, p) == ElemsFrom(num, s, q, [])
  {
    hide ElemsFrom, MembersFrom;
  }

  lemma {:induction false} ObjectTurn(num: Numbers, s: string, p: nat, q: nat)
    requires CharAt(s, p, '{') && SkipBlanks(s, p + 1) == q
    ensures ParseValue(num, s, p) == MembersFrom(num, s, q, [])
  {
    hide ElemsFrom, MembersFrom;
  }

  lemma {:induction false} ElemsTurn(num: Numbers, s: string, p: nat, done: seq<Value>, v: Value, q: nat, r: nat)
    requires p < |s| && s[p] != ']' && q <= |s| && ParseValue(num, s, p) == Return(v, q)
    requires SkipBlanks(s, q) == r
    ensures CharAt(s, r, ']') ==> ElemsFrom(num, s, p, done) == Return(List(done + [v]), r + 1)
    ensures CharAt(s, r, ',') ==>
      ElemsFrom(num, s, p, done) == ElemsFrom(num, s, SkipBlanks(s, r + 1), done + [v])
  {
    hide ParseValue, SkipBlanks, MembersFrom;
  }

  lemma {:induction false} MembersTurn(num: Numbers, s: string, p: nat, done: seq<(Value, Value)>,
                                       k: Value, m: nat, v: Value, q: nat, r: nat)
    requires p < |s| && IsQuote(s[p]) && ParseKey(num, s, p) == Return(k, m)
    requires m <= |s| && q <= |s| && ParseValue(num, s, m) == Return(v, q)
    requires SkipBlanks(s, q) == r
    ensures CharAt(s, r, '}') ==> MembersFrom(num, s, p, done) == Return(Dict(Assign(done, k, v)), r + 1)
    ensures CharAt(s, r, ',') ==>
      MembersFrom(num, s, p, done) == MembersFrom(num, s, SkipBlanks(s, r + 1), Assign(done, k, v))
  {
    hide ParseKey, ParseValue, SkipBlanks, Assign, ElemsFrom;
  }

  lemma {:induction false} TreeParsed(num: Numbers, s: string, p: nat, t: Tree)
    requires Reads(num, s, p, t).Some? && Follows(s, Reads(num, s, p, t).value.1)
    ensures var r := Reads(num, s, p, t).value;
      p < r.1 <= |s| && ParseValue(num, s, p) == Return(r.0, r.1)
    ensures !IsBlank(s[p]) && s[p] != ']' && s[p] != '}'
    decreases t, 0
  {
    hide At, ReadsElems, ReadsMembers, ReadsKey, MembersFrom, ElemsFrom, ParseValue, SkipBlanks;
    match t
    case Array(b, e) => ArrayParsed(num, s, p, b, e);
    case Object(b, m) => ObjectParsed(num, s, p, b, m);
    case _ => LeafParsed(num, s, p, t);
  }

  lemma {:induction false} ArrayParsed(num: Numbers, s: string, p: nat, b: string, e: Elems)
    requires CharAt(s, p, '[') && BlanksAt(s, p + 1, b) && ReadsElems(num, s, p + 1 + |b|, e, []).Some?
    ensures var r := ReadsElems(num, s, p + 1 + |b|, e, []).value;
      p < r.1 <= |s| && ParseValue(num, s, p) == Return(r.0, r.1)
    decreases e, 2
  {
    hide At, Reads, ReadsElems, ReadsMembers, ReadsKey, MembersFrom, ElemsFrom, ParseValue, ParseKey, SkipBlanks;
    ElemsParsed(num, s, p + 1 + |b|, e, []);
    SkipsBlanks(s, p + 1, b);
    ArrayTurn(num, s, p, p + 1 + |b|);
  }

  lemma {:induction false} ObjectParsed(num: Numbers, s: string, p: nat, b: string, m: Members)
    requires CharAt(s, p, '{') && BlanksAt(s, p + 1, b) && ReadsMembers(num, s, p + 1 + |b|, m, []).Some?
    ensures var r := ReadsMembers(num, s, p + 1 + |b|, m, []).value;
      p < r.1 <= |s| && ParseValue(num, s, p) == Return(r.0, r.1)
    decreases m, 2
  {
    hide At, Reads, ReadsElems, ReadsMembers, ReadsKey, MembersFrom, ElemsFrom, ParseValue, ParseKey, SkipBlanks;
    MembersParsed(num, s, p + 1 + |b|, m, [], ReadsMembers(num, s, p + 1 + |b|, m, []).value);
    SkipsBlanks(s, p + 1, b);
    ObjectTurn(num, s, p, p + 1 + |b|);
  }

  // An element and the character behind it; x is what reading the element gives.
  lemma {:induction false} ElemParsed(num: Numbers, s: string, p: nat, v: Tree, x: (Value, nat), a: string,
                                      e: char, done: seq<Value>)
    requires Reads(num, s, p, v) == Some(x) && ReadsAfter(s, x.1, a, e).Some? && (e == ',' || e == ']')
    ensures p < x.1 <= |s| && x.1 + |a| < |s| && !IsBlank(s[p])
    ensures ReadsAfter(s, x.1, a, e) == Some(x.1 + |a| + 1)
    ensures e == ']' ==> ElemsFrom(num, s, p, done) == Return(List(done + [x.0]), x.1 + |a| + 1)
    ensures e == ',' ==>
      ElemsFrom(num, s, p, done) == ElemsFrom(num, s, SkipBlanks(s, x.1 + |a| + 1), done + [x.0])
    decreases v, 1
  {
    hide At, Reads, ReadsElems, ReadsMembers, ReadsKey, MembersFrom, ElemsFrom, ParseValue, ParseKey, SkipBlanks;
    AfterItem(s, x.1, a, e);
    TreeParsed(num, s, p, v);
    ElemsTurn(num, s, p, done, x.0, x.1, x.1 + |a|);
  }

  lemma {:induction false} ElemsParsed(num: Numbers, s: string, p: nat, e: Elems, done: seq<Value>)
    requires ReadsElems(num, s, p, e, done).Some?
    ensures p < |s| && !IsBlank(s[p])
    ensures var r := ReadsElems(num, s, p, e, done).value;
      p < r.1 <= |s| && ElemsFrom(num, s, p, done) == Return(r.0, r.1)
    decreases e, 1
  {
    hide At, Reads, ReadsMembers, ReadsKey, ParseValue, ParseKey, SkipBlanks, MembersFrom;
    match e
    case NoElems =>
    case LastElem(v, a) =>
      ElemParsed(num, s, p, v, Reads(num, s, p, v).value, a, ']', done);
    case MoreElems(v, a, c, rest) => MoreElemsParsed(num, s, p, e, done);
  }

  lemma {:induction false} MoreElemsParsed(num: Numbers, s: string, p: nat, e: Elems, done: seq<Value>)
    requires e.MoreElems? && ReadsElems(num, s, p, e, done).Some?
    ensures p < |s| && !IsBlank(s[p])
    ensures var r := ReadsElems(num, s, p, e, done).value;
      p < r.1 <= |s| && ElemsFrom(num, s, p, done) == Return(r.0, r.1)
    decreases e, 0
  {
    hide At, Reads, ReadsMembers, ReadsKey, MembersFrom, ElemsFrom, ParseValue, ParseKey, SkipBlanks;
    var x := Reads(num, s, p, e.elem).value;
    var q := x.1 + |e.after| + 1;
    ElemParsed(num, s, p, e.elem, x, e.after, ',', done);
    ElemsParsed(num, s, q + |e.afterComma|, e.rest, done + [x.0]);
    SkipsBlanks(s, q, e.afterComma);
  }

  lemma {:induction false} KeyParsed(num: Numbers, s: string, p: nat, k: Text, b: string, c: string)
    requires ReadsKey(num, s, p, k, b, c).Some?
    requires ReadsKey(num, s, p, k, b, c).value.1 < |s| ==> !IsBlank(s[ReadsKey(num, s, p, k, b, c).value.1])
    ensures p < |s| && IsQuote(s[p])
    ensures var r := ReadsKey(num, s, p, k, b, c).value;
      p < r.1 <= |s| && ParseKey(num, s, p) == Return(r.0, r.1)
  {
    hide At, SkipBlanks, ParseString, TextValue;
    var q := p + |RenderText(k)|;
    QuotedParsed(num, s, p, k.quote, k.pieces);
    AfterItem(s, q, b, ':');
    SkipsBlanks(s, q + |b| + 1, c);
  }

  // A key, its value and the character behind it; y and x are what reading them gives.  Behind a
  // comma the loop goes on at n.
  lemma {:induction false} MemberParsed(num: Numbers, s: string, p: nat, k: Text, b: string, c: string,
                                        y: (Value, nat), v: Tree, x: (Value, nat), a: string, e: char,
                                        done: seq<(Value, Value)>, n: nat)
    requires ReadsKey(num, s, p, k, b, c) == Some(y) && Reads(num, s, y.1, v) == Some(x)
    requires ReadsAfter(s, x.1, a, e).Some? && (e == ',' || e == '}')
    requires x.1 + |a| + 1 <= |s| && n == SkipBlanks(s, x.1 + |a| + 1)
    ensures p < y.1 < x.1 <= |s| && !IsBlank(s[p]) && CharAt(s, x.1 + |a|, e)
    ensures ReadsAfter(s, x.1, a, e) == Some(x.1 + |a| + 1)
    ensures e == '}' ==>
      MembersFrom(num, s, p, done) == Return(Dict(Assign(done, y.0, x.0)), x.1 + |a| + 1)
    ensures e == ',' ==> MembersFrom(num, s, p, done) == MembersFrom(num, s, n, Assign(done, y.0, x.0))
    decreases v, 1
  {
    hide At, Reads, ReadsElems, ReadsMembers, ReadsKey;
    hide MembersFrom, ElemsFrom, ParseValue, ParseKey, SkipBlanks, Assign;
    AfterItem(s, x.1, a, e);
    TreeParsed(num, s, y.1, v);
    KeyParsed(num, s, p, k, b, c);
    MembersTurn(num, s, p, done, y.0, y.1, x.0, x.1, x.1 + |a|);
  }

  lemma {:induction false} MembersParsed(num: Numbers, s: string, p: nat, m: Members,
                                         done: seq<(Value, Value)>, r: (Value, nat))
    requires ReadsMembers(num, s, p, m, done) == Some(r)
    ensures p < r.1 <= |s| && !IsBlank(s[p]) && MembersFrom(num, s, p, done) == Return(r.0, r.1)
    decreases m, 1
  {
    hide At, Reads, ReadsElems, ReadsKey, ParseValue, ParseKey, SkipBlanks, Assign, ElemsFrom;
    match m
    case NoMembers =>
    case LastMember(k, b, c, v, a) =>
      var y := ReadsKey(num, s, p, k, b, c).value;
      var x := Reads(num, s, y.1, v).value;
      MemberParsed(num, s, p, k, b, c, y, v, x, a, '}', done, SkipBlanks(s, x.1 + |a| + 1));
    case MoreMembers(k, b, c, v, a, d, rest) =>
      var y, x := MoreMembersRead(num, s, p, m, done, r);
      MoreMembersParsed(num, s, p, m, done, y, x, r);
  }

  // Reading a member that a comma follows, step by step: key y, value x, then the rest.
  lemma {:induction false} MoreMembersRead(num: Numbers, s: string, p: nat, m: Members,
                                           done: seq<(Value, Value)>, r: (Value, nat))
    returns (y: (Value, nat), x: (Value, nat))
    requires m.MoreMembers? && ReadsMembers(num, s, p, m, done) == Some(r)
    ensures ReadsKey(num, s, p, m.key, m.beforeColon, m.afterColon) == Some(y)
    ensures Reads(num, s, y.1, m.value) == Some(x)
    ensures ReadsAfter(s, x.1, m.after, ',') == Some(x.1 + |m.after| + 1)
    ensures BlanksAt(s, x.1 + |m.after| + 1, m.afterComma)
    ensures ReadsMembers(num, s, x.1 + |m.after| + 1 + |m.afterComma|, m.rest, Assign(done, y.0, x.0)) == Some(r)
  {
    hide At, Reads, ReadsKey, Assign, ReadsElems;
    y := ReadsKey(num, s, p, m.key, m.beforeColon, m.afterColon).value;
    x := Reads(num, s, y.1, m.value).value;
  }

  lemma {:induction false} MoreMembersParsed(num: Numbers, s: string, p: nat, m: Members,
                                             done: seq<(Value, Value)>, y: (Value, nat), x: (Value, nat),
                                             r: (Value, nat))
    requires m.MoreMembers?
    requires ReadsKey(num, s, p, m.key, m.beforeColon, m.afterColon) == Some(y)
    requires Reads(num, s, y.1, m.value) == Some(x)
    requires ReadsAfter(s, x.1, m.after, ',') == Some(x.1 + |m.after| + 1)
    requires BlanksAt(s, x.1 + |m.after| + 1, m.afterComma)
    requires ReadsMembers(num, s, x.1 + |m.after| + 1 + |m.afterComma|, m.rest, Assign(done, y.0, x.0)) == Some(r)
    ensures p < r.1 <= |s| && !IsBlank(s[p]) && MembersFrom(num, s, p, done) == Return(r.0, r.1)
    decreases m, 0
  {
    hide At, Reads, ReadsElems, ReadsMembers, ReadsKey;
    hide MembersFrom, ElemsFrom, ParseValue, ParseKey, SkipBlanks, Assign;
    var q, d := x.1 + |m.after| + 1, Assign(done, y.0, x.0);
    MembersParsed(num, s, q + |m.afterComma|, m.rest, d, r);
    SkipsBlanks(s, q, m.afterComma);
    MemberParsed(num, s, p, m.key, m.beforeColon, m.afterColon, y, m.value, x, m.after, ',', done, q + |m.afterComma|);
  }
}
