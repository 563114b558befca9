// What `extract_json` does with texts spelt out character by character: escapes, quotes, words, numbers,
// blanks, commas and keys that are equal.
module JsonTexts {
  import opened JsonComplete
  import opened JsonExtract
  import opened JsonParser
  import opened JsonRoundTrip
  import opened JsonSyntax
  import opened Options

  // {"a":text}
  function InDict(text: string): string { "{\"a\":" + text + "}" }

  // The dict with v under the key "a", which is no number.
  function DictOf(v: Value): Value { Dict([(Str("a"), v)]) }

  const KEY := Quoted('"', [Raw('a')])

  lemma {:induction false} KeyIs(num: Numbers)
    requires num.toInt("a") == None
    ensures RenderText(KEY) == "\"a\"" && ValidText(KEY) && TextValue(num, KEY) == Str("a")
  {
    assert [Raw('a')][1..] == [] && RenderPieces([Raw('a')]) == "a" && PiecesText([Raw('a')]) == "a";
    NoWord(num);
  }

  lemma {:induction false} NoWord(num: Numbers)
    requires num.toInt("a") == None
    ensures ConvertValue(num, "a") == Str("a")
  {
    LowerChars("a");
    EInLower("a");
  }

  lemma {:induction false} LowerChars(s: string)
    ensures |Lower(s)| == |s| && forall i :: 0 <= i < |s| ==> Lower(s)[i] == LowerChar(s[i])
  {
    if s != "" { LowerChars(s[1..]); }
  }

  // A value that stands there is what the dict holds.
  lemma {:induction false} Member(num: Numbers, t: Tree)
    requires num.toInt("a") == None && Valid(num, t)
    ensures ExtractJson(num, InDict(Render(t))) == Some(DictOf(Meaning(num, t)))
  {
    hide ExtractJson, Render, Valid, Meaning, InDict;
    var o := InDictTree(t);
    InDictIs(num, t);
    assert InDict(Render(t)) == "" + Render(o) + "";
    assert Blanks("");
    Accepts(num, InDict(Render(t)), DictOf(Meaning(num, t)), "", o, "");
  }

  function InDictTree(t: Tree): Tree { Object("", LastMember(KEY, "", "", t, "")) }

  lemma {:induction false} InDictIs(num: Numbers, t: Tree)
    requires num.toInt("a") == None && Valid(num, t)
    ensures Valid(num, InDictTree(t)) && Render(InDictTree(t)) == InDict(Render(t))
    ensures Meaning(num, InDictTree(t)) == DictOf(Meaning(num, t))
  {
    hide TextValue, ValidText, RenderText, Blanks;
    KeyIs(num);
    NoBlanks();
    var m := LastMember(KEY, "", "", t, "");
    assert ValidMembers(num, m) && MembersMeaning(num, m, []) == [(Str("a"), Meaning(num, t))];
    InDictRendered(t);
  }

  lemma {:induction false} InDictRendered(t: Tree)
    requires RenderText(KEY) == "\"a\""
    ensures Render(InDictTree(t)) == InDict(Render(t))
  {
    hide RenderText;
    LastRendered(KEY, t);
    assert "\"a\"" + ":" == "\"a\":" && "{" + "" == "{" && "{\"a\":" == "{" + "\"a\":";
  }

  lemma {:induction false} LastRendered(k: Text, t: Tree)
    ensures RenderMembers(LastMember(k, "", "", t, "")) == RenderText(k) + ":" + Render(t)
  {
    hide RenderText, Render;
    NothingBetween(RenderText(k), Render(t));
  }

  lemma {:induction false} NothingBetween(a: string, b: string)
    ensures a + "" + ":" + "" + b + "" == a + ":" + b
  {
    assert a + "" == a && a + ":" + "" == a + ":";
  }

  lemma {:induction false} NoBlanks()
    ensures Blanks("")
  {}

  // ---- strings ----

  // A string as JSON writes it: newline, tab and carriage return by their letters, double quotes and
  // backslashes behind a backslash.
  function Printed(s: string): string {
    if s == "" then ""
    else
      (match s[0]
       case '\n' => "\\n"
       case '\t' => "\\t"
       case '\r' => "\\r"
       case '"' => "\\\""
       case '\\' => "\\\\"
       case c => [c]) + Printed(s[1..])
  }

  lemma {:induction false} EscapesPrinted(s: string)
    ensures RenderPieces(Escapes(s)) == Printed(s)
  {
    if s != "" {
      EscapesPrinted(s[1..]);
      assert Escapes(s)[1..] == Escapes(s[1..]);
    }
  }

  // It comes back as that string, converted.
  lemma {:induction false} PrintedRead(num: Numbers, s: string)
    requires num.toInt("a") == None
    ensures ExtractJson(num, InDict("\"" + Printed(s) + "\"")) == Some(DictOf(ConvertValue(num, s)))
  {
    hide ExtractJson;
    EscapesMean(s);
    EscapesPrinted(s);
    Member(num, OfText(Quoted('"', Escapes(s))));
  }

  // Any other character behind a backslash stands for itself.
  lemma {:induction false} OthersThemselves(num: Numbers, c: char, q: char)
    requires num.toInt("a") == None && c != 'n' && c != 't' && c != 'r' && (q == '"' || q == '\'')
    ensures ExtractJson(num, InDict([q, '\\', c, q])) == Some(DictOf(ConvertValue(num, [c])))
  {
    hide ExtractJson;
    var x := Quoted(q, [Escape(c)]);
    assert Escaped(c) == c;
    EscapeAlone(c);
    assert RenderText(x) == [q, '\\', c, q];
    Member(num, OfText(x));
  }

  lemma {:induction false} EscapeAlone(c: char)
    ensures RenderPieces([Escape(c)]) == ['\\', c] && PiecesText([Escape(c)]) == [Escaped(c)]
  {
    assert [Escape(c)][1..] == [] && RenderPieces([]) == "" && PiecesText([]) == "";
  }

  function Raws(s: string): (r: seq<Piece>)
    ensures |r| == |s| && forall i :: 0 <= i < |r| ==> r[i] == Raw(s[i])
  {
    if s == "" then [] else [Raw(s[0])] + Raws(s[1..])
  }

  lemma {:induction false} RawsAre(s: string)
    ensures RenderPieces(Raws(s)) == s && PiecesText(Raws(s)) == s
  {
    if s != "" {
      RawsAre(s[1..]);
      assert Raws(s)[1..] == Raws(s[1..]);
    }
  }

  // Single or double quotes, one or three on each side: what is between them is the string.
  lemma {:induction false} QuotedRead(num: Numbers, s: string, q: char)
    requires num.toInt("a") == None && (q == '"' || q == '\'') && q !in s
    ensures '\\' !in s ==> ExtractJson(num, InDict([q] + s + [q])) == Some(DictOf(ConvertValue(num, s)))
    ensures ExtractJson(num, InDict([q, q, q] + s + [q, q, q])) == Some(DictOf(ConvertValue(num, s)))
  {
    hide ExtractJson;
    if '\\' !in s {
      RawsAre(s);
      Member(num, OfText(Quoted(q, Raws(s))));
    }
    var b := s + [q, q, q];
    forall i | 0 <= i < |s| ensures Slice(b, i, 3) != [q, q, q] { assert Slice(b, i, 3)[0] == s[i] && s[i] in s; }
    Member(num, OfText(Triple(q, s)));
  }

  // ---- words ----

  // The three words, every letter in either case.
  lemma {:induction false} WordsRead(num: Numbers, w: string)
    requires num.toInt("a") == None
    ensures |w| == 4 && w[0] in "tT" && w[1] in "rR" && w[2] in "uU" && w[3] in "eE" ==> Means(num, w, Bool(true))
    ensures |w| == 5 && w[0] in "fF" && w[1] in "aA" && w[2] in "lL" && w[3] in "sS" && w[4] in "eE" ==>
      Means(num, w, Bool(false))
    ensures |w| == 4 && w[0] in "nN" && w[1] in "uU" && w[2] in "lL" && w[3] in "lL" ==> Means(num, w, Null)
  {
    hide Means;
    if |w| == 4 && w[0] in "tT" && w[1] in "rR" && w[2] in "uU" && w[3] in "eE" { WordIs(num, w, "true"); }
    if |w| == 5 && w[0] in "fF" && w[1] in "aA" && w[2] in "lL" && w[3] in "sS" && w[4] in "eE" {
      WordIs(num, w, "false");
    }
    if |w| == 4 && w[0] in "nN" && w[1] in "uU" && w[2] in "lL" && w[3] in "lL" { WordIs(num, w, "null"); }
  }

  // Bare or as a string, w means v.
  predicate Means(num: Numbers, w: string, v: Value) {
    && ExtractJson(num, InDict(w)) == Some(DictOf(v))
    && ExtractJson(num, InDict("\"" + w + "\"")) == Some(DictOf(v))
  }

  lemma {:induction false} WordIs(num: Numbers, w: string, low: string)
    requires num.toInt("a") == None && (low == "true" || low == "false" || low == "null") && |w| == |low|
    requires forall i :: 0 <= i < |w| ==> LowerChar(w[i]) == low[i]
    ensures Means(num, w, if low == "true" then Bool(true) else if low == "false" then Bool(false) else Null)
  {
    hide ExtractJson;
    LowerChars(w);
    assert Lower(w) == low;
    Member(num, Word(w));
    forall c | c in w ensures c != '"' && c != '\\' {
      var i :| 0 <= i < |w| && w[i] == c;
      assert LowerChar(c) == low[i];
    }
    QuotedRead(num, w, '"');
  }

  // ---- numbers ----

  // A text with a point or an exponent is a float, any other an integer, and a string if it cannot be
  // read so.
  lemma {:induction false} NumbersConvert(num: Numbers, s: string)
    requires s != "" && s[0] in "-+.0123456789"
    ensures if '.' in s || 'e' in s || 'E' in s then
        ConvertValue(num, s) == (match num.toFloat(s) case Some(x) => Float(x) case None => Str(s))
      else
        ConvertValue(num, s) == (match num.toInt(s) case Some(n) => Int(n) case None => Str(s))
  {
    LowerChars(s);
    EInLower(s);
  }

  lemma {:induction false} EInLower(s: string)
    ensures 'e' in Lower(s) <==> 'e' in s || 'E' in s
  {
    LowerChars(s);
    if 'e' in s { var i :| 0 <= i < |s| && s[i] == 'e'; assert Lower(s)[i] == 'e'; }
    if 'E' in s { var i :| 0 <= i < |s| && s[i] == 'E'; assert Lower(s)[i] == 'e'; }
    if 'e' in Lower(s) { var i :| 0 <= i < |s| && Lower(s)[i] == 'e'; assert s[i] in s; }
  }

  // Without quotes too, unless it cannot be read.
  lemma {:induction false} NumbersRead(num: Numbers, s: string)
    requires num.toInt("a") == None && s != "" && s[0] in "-+.0123456789"
    requires forall i :: 0 <= i < |s| ==> s[i] in "-+.0123456789eE"
    ensures '.' in s || 'e' in s || 'E' in s ==>
      forall x: real :: num.toFloat(s) == Some(x) ==> ExtractJson(num, InDict(s)) == Some(DictOf(Float(x)))
    ensures '.' !in s && 'e' !in s && 'E' !in s ==>
      forall n: int :: num.toInt(s) == Some(n) ==> ExtractJson(num, InDict(s)) == Some(DictOf(Int(n)))
  {
    hide ExtractJson, InDict, DictOf;
    EInLower(s);
    StartsWell(s);
    if ToNumber(num, s).Some? { Member(num, Number(s)); }
  }

  lemma {:induction false} StartsWell(s: string)
    requires s != "" && s[0] in "-+.0123456789" && forall i :: 0 <= i < |s| ==> s[i] in "-+.0123456789eE"
    ensures StartsNumber(s[0]) && forall i :: 0 <= i < |s| ==> InNumber(s[i])
  {
  }

  // ---- keys ----

  // Python's == between the values a key can be: True is 1, and an int equals the float of its value.
  predicate PythonEqual(a: Value, b: Value) {
    match (a, b)
    case (Bool(p), Int(n)) => n == if p then 1 else 0
    case (Int(n), Bool(p)) => n == if p then 1 else 0
    case (Bool(p), Float(x)) => x == if p then 1.0 else 0.0
    case (Float(x), Bool(p)) => x == if p then 1.0 else 0.0
    case (Int(n), Float(x)) => n as real == x
    case (Float(x), Int(n)) => n as real == x
    case _ => a == b
  }

  // Assigning under a key that equals one there replaces its value and keeps key and place; under a new
  // key it appends.
  lemma {:induction false} AssignIs(d: seq<(Value, Value)>, key: Value, value: Value, i: nat)
    requires forall j :: 0 <= j < i && j < |d| ==> !PythonEqual(d[j].0, key)
    requires i < |d| ==> PythonEqual(d[i].0, key)
    ensures Assign(d, key, value) == if i < |d| then d[i := (d[i].0, value)] else d + [(key, value)]
  {
    hide SameKey, PythonEqual;
    if d != [] {
      EqualAsNumbers(d[0].0, key);
      if i > 0 {
        forall j | 0 <= j < i - 1 && j < |d[1..]| ensures !PythonEqual(d[1..][j].0, key) {
          assert d[1..][j] == d[j + 1];
        }
        AssignIs(d[1..], key, value, i - 1);
      }
    }
  }

  lemma {:induction false} AssignBoth(k: Value, a: Value, l: Value, b: Value)
    ensures Assign(Assign([], k, a), l, b) == if PythonEqual(k, l) then [(k, b)] else [(k, a), (l, b)]
  {
    hide Assign, PythonEqual;
    var one := [(k, a)];
    AssignIs([], k, a, 0);
    assert [] + one == one;
    AssignIs(one, l, b, if PythonEqual(k, l) then 0 else 1);
    assert one[0 := (k, b)] == [(k, b)] && one + [(l, b)] == [(k, a), (l, b)];
  }

  lemma {:induction false} EqualAsNumbers(a: Value, b: Value)
    ensures SameKey(a, b) <==> PythonEqual(a, b)
  {
    if a.Int? && b.Int? { assert a.n as real == b.n as real <==> a.n == b.n; }
  }

  function Entry(x: string): Text { Quoted('"', Raws(x)) }

  lemma {:induction false} EntryIs(num: Numbers, x: string)
    requires '"' !in x && '\\' !in x
    ensures RenderText(Entry(x)) == "\"" + x + "\"" && ValidText(Entry(x))
    ensures TextValue(num, Entry(x)) == ConvertValue(num, x)
  {
    RawsAre(x);
  }

  // An object of two members without blanks.
  function Pair(k: Text, t: Tree, l: Text, u: Tree): Tree {
    Object("", MoreMembers(k, "", "", t, "", "", LastMember(l, "", "", u, "")))
  }

  lemma {:induction false} PairIs(num: Numbers, k: Text, t: Tree, l: Text, u: Tree)
    requires k.Quoted? && l.Quoted? && ValidText(k) && ValidText(l) && Valid(num, t) && Valid(num, u)
    ensures Valid(num, Pair(k, t, l, u))
    ensures Meaning(num, Pair(k, t, l, u))
         == Dict(Assign(Assign([], TextValue(num, k), Meaning(num, t)), TextValue(num, l), Meaning(num, u)))
  {
    hide ValidText, TextValue, Assign, Blanks;
    NoBlanks();
    var last := LastMember(l, "", "", u, "");
    assert ValidMembers(num, last);
    var m := MoreMembers(k, "", "", t, "", "", last);
    assert ValidMembers(num, m);
    var done := Assign([], TextValue(num, k), Meaning(num, t));
    assert MembersMeaning(num, m, []) == MembersMeaning(num, last, done);
  }

  lemma {:induction false} PairRendered(k: Text, t: Tree, l: Text, u: Tree)
    ensures Render(Pair(k, t, l, u))
         == "{" + RenderText(k) + ":" + Render(t) + "," + RenderText(l) + ":" + Render(u) + "}"
  {
    hide RenderText, Render, RenderMembers;
    LastRendered(l, u);
    var last := LastMember(l, "", "", u, "");
    MoreRendered(k, t, last);
    assert Render(Pair(k, t, l, u)) == "{" + "" + RenderMembers(MoreMembers(k, "", "", t, "", "", last)) + "}" by {
      ObjectRendered(MoreMembers(k, "", "", t, "", "", last));
    }
    Braced(RenderText(k) + ":" + Render(t), RenderText(l), Render(u));
  }

  lemma {:induction false} ObjectRendered(m: Members)
    ensures Render(Object("", m)) == "{" + "" + RenderMembers(m) + "}"
  {
    hide RenderMembers;
  }

  lemma {:induction false} Braced(a: string, b: string, c: string)
    ensures "{" + "" + (a + "," + (b + ":" + c)) + "}" == "{" + a + "," + b + ":" + c + "}"
  {
    assert a + "," + (b + ":" + c) == a + "," + b + ":" + c;
  }

  lemma {:induction false} MoreRendered(k: Text, t: Tree, rest: Members)
    ensures RenderMembers(MoreMembers(k, "", "", t, "", "", rest))
         == RenderText(k) + ":" + Render(t) + "," + RenderMembers(rest)
  {
    hide RenderText, Render;
    NothingBetween(RenderText(k), Render(t));
    var s := RenderText(k) + ":" + Render(t) + ",";
    assert s + "" == s;
  }

  lemma {:induction false} PairText(x: string, a: string, y: string, b: string)
    ensures "{" + ("\"" + x + "\"") + ":" + a + "," + ("\"" + y + "\"") + ":" + b + "}"
         == "{\"" + x + "\":" + a + ",\"" + y + "\":" + b + "}"
  {
    assert "{\"" == "{" + "\"" && "\":" == "\"" + ":" && ",\"" == "," + "\"";
  }

  lemma {:induction false} ObjectHolds(num: Numbers, o: Tree, s: string)
    requires o.Object? && Valid(num, o) && Render(o) == s
    ensures Holds(num, s, Meaning(num, o), "", o, "")
  {
    hide Valid, Meaning, Render;
    assert s == "" + s + "";
  }

  // Two members: one entry, with the first key and the second value, if the keys are equal as Python
  // has it, also once they have been converted.
  lemma {:induction false} TwoMembers(num: Numbers, x: string, t: Tree, y: string, u: Tree)
    requires '"' !in x && '\\' !in x && '"' !in y && '\\' !in y && Valid(num, t) && Valid(num, u)
    ensures var k, l := ConvertValue(num, x), ConvertValue(num, y);
      ExtractJson(num, "{\"" + x + "\":" + Render(t) + ",\"" + y + "\":" + Render(u) + "}")
      == Some(Dict(if PythonEqual(k, l) then [(k, Meaning(num, u))]
                   else [(k, Meaning(num, t)), (l, Meaning(num, u))]))
  {
    hide ExtractJson, ConvertValue, TextValue, ValidText, RenderText, Render, Valid, Meaning, Assign, PythonEqual;
    EntryIs(num, x);
    EntryIs(num, y);
    var k, l := ConvertValue(num, x), ConvertValue(num, y);
    var p := Pair(Entry(x), t, Entry(y), u);
    PairIs(num, Entry(x), t, Entry(y), u);
    PairRendered(Entry(x), t, Entry(y), u);
    AssignBoth(k, Meaning(num, t), l, Meaning(num, u));
    PairText(x, Render(t), y, Render(u));
    var s := "{\"" + x + "\":" + Render(t) + ",\"" + y + "\":" + Render(u) + "}";
    assert s == "" + s + "";
    ObjectHolds(num, p, s);
    Accepts(num, s, Meaning(num, p), "", p, "");
  }

  // ---- blanks and commas ----

  // Between the braces of an empty dict only these four characters may stand.
  lemma {:induction false} BlankIff(num: Numbers, x: char)
    ensures ExtractJson(num, ['{', x, '}']).Some? <==> x in " \t\n\r"
    ensures x in " \t\n\r" ==> ExtractJson(num, ['{', x, '}']) == Some(Dict([]))
  {
    hide ExtractJson;
    var s := ['{', x, '}'];
    if IsBlank(x) {
      var o := Object([x], NoMembers);
      assert Blanks([x]) && Valid(num, o) && Meaning(num, o) == Dict([]);
      assert Render(o) == "{" + [x] + "" + "}" == s;
      assert s == "" + Render(o) + "";
      Accepts(num, s, Dict([]), "", o, "");
    } else {
      NotBlank(num, x);
    }
  }

  lemma {:induction false} NotBlank(num: Numbers, x: char)
    requires !IsBlank(x)
    ensures ExtractJson(num, ['{', x, '}']).None?
  {
    var s := ['{', x, '}'];
    assert s == "" + s + "";
    CoreOf(s, "", s, "");
    assert SkipBlanks(s, 0) == 0 && SkipBlanks(s, 1) == 1;
    assert ParseValue(num, s, 0) == MembersFrom(num, s, 1, []);
    if IsQuote(x) { Unended(num, s, 2, x, ""); }
  }

  // No quote any more.
  lemma {:induction false} Unended(num: Numbers, s: string, p: nat, q: char, done: string)
    requires p <= |s| && forall i :: p <= i < |s| ==> s[i] != q && s[i] != '\\'
    ensures StringFrom(num, s, p, q, done).Raise?
    decreases |s| - p
  {
    if p < |s| { Unended(num, s, p + 1, q, done + [s[p]]); }
  }

  // Behind a bare digit only more of the number, a blank or a comma may stand.
  lemma {:induction false} AfterDigit(num: Numbers, c: char, x: char)
    requires c in "0123456789" && x !in "-+.0123456789eE" && x !in " \t\n\r,"
    ensures ExtractJson(num, InDict([c, x])).None?
  {
    hide ExtractJson, ToNumber, ConvertValue;
    var s := InDict([c, x]);
    assert s == ['{', '"', 'a', '"', ':', c, x, '}'];
    ReadsDigit(num, s, c, x);
    assert s == "" + s + "";
    CoreOf(s, "", s, "");
    ExtractIs(num, s);
  }

  lemma {:induction false} ExtractIs(num: Numbers, s: string)
    requires Core(s) == Some(s)
    ensures ExtractJson(num, s).Some? ==>
      ParseValue(num, s, 0).Return? && SkipBlanks(s, ParseValue(num, s, 0).pos) == |s|
  {
    hide ParseValue;
  }

  lemma {:induction false} ReadsDigit(num: Numbers, s: string, c: char, x: char)
    requires s == ['{', '"', 'a', '"', ':', c, x, '}']
    requires c in "0123456789" && x !in "-+.0123456789eE" && x !in " \t\n\r,"
    ensures ParseValue(num, s, 0).Return? ==> SkipBlanks(s, ParseValue(num, s, 0).pos) < |s|
  {
    hide ToNumber, ConvertValue, Assign;
    assert SkipBlanks(s, 0) == 0 && SkipBlanks(s, 1) == 1;
    assert ParseValue(num, s, 0) == MembersFrom(num, s, 1, []);
    assert StringFrom(num, s, 2, '"', "") == StringFrom(num, s, 3, '"', "" + [s[2]]);
    assert ParseKey(num, s, 1).pos == 5;
    DigitValue(num, s, 5);
    var v := ParseValue(num, s, 5);
    assert SkipBlanks(s, 6) == 6 && SkipBlanks(s, 7) == 7;
  }

  lemma {:induction false} DigitValue(num: Numbers, s: string, p: nat)
    requires p + 1 < |s| && '0' <= s[p] <= '9' && !InNumber(s[p + 1])
    ensures ParseValue(num, s, p).Return? ==> ParseValue(num, s, p).pos == p + 1
  {
    hide ToNumber, ParseObject, ParseArray, ParseString, TripleFrom, TripleAt, WordAt;
    NoWordAt(s, p);
    assert NumberEnd(s, p + 1) == p + 1;
  }

  lemma {:induction false} NoWordAt(s: string, p: nat)
    requires p < |s| && '0' <= s[p] <= '9'
    ensures WordAt(s, p) == None && !TripleAt(s, p) && SkipBlanks(s, p) == p
  {
    assert Slice(s, p, 3)[0] == s[p];
    LowerChars(Slice(s, p, 4));
    LowerChars(Slice(s, p, 5));
  }
}
