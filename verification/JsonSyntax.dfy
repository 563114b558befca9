// The lenient JSON of recipe/collabllm/utils.py `extract_json`: the values it builds, the texts
// it accepts (as concrete syntax trees that keep every blank, quote style, escape and comma) and
// what each text means.
module JsonSyntax {
  import opened Options

  // What json text is turned into: Python's None, bool, int, float, str, list and dict.  A dict
  // is kept as its entries in insertion order.
  datatype Value =
    | Null
    | Bool(b: bool)
    | Int(n: int)
    | Float(x: real)
    | Str(s: string)
    | List(items: seq<Value>)
    | Dict(entries: seq<(Value, Value)>)

  // Python's int() and float() on a string; None stands for ValueError.
  datatype Numbers = Numbers(toInt: string -> Option<int>, toFloat: string -> Option<real>)

  // ---- Python dict assignment ----

  // Keys are equal when Python's == says so: True, 1 and 1.0 are one key.
  function AsNumber(v: Value): Option<real> {
    match v
    case Bool(b) => Some(if b then 1.0 else 0.0)
    case Int(n) => Some(n as real)
    case Float(x) => Some(x)
    case _ => None
  }

  predicate SameKey(a: Value, b: Value) {
    if AsNumber(a).Some? && AsNumber(b).Some? then AsNumber(a) == AsNumber(b) else a == b
  }

  // obj[key] = value keeps the place and the first spelling of an existing key.
  function Assign(d: seq<(Value, Value)>, key: Value, value: Value): seq<(Value, Value)> {
    if d == [] then [(key, value)]
    else if SameKey(d[0].0, key) then [(d[0].0, value)] + d[1..]
    else [d[0]] + Assign(d[1..], key, value)
  }

  // ---- characters ----

  predicate IsBlank(c: char) { c == ' ' || c == '\t' || c == '\n' || c == '\r' }
  predicate IsQuote(c: char) { c == '"' || c == '\'' }
  predicate StartsNumber(c: char) { '0' <= c <= '9' || c == '-' || c == '+' || c == '.' }
  predicate InNumber(c: char) { StartsNumber(c) || c == 'e' || c == 'E' }

  function LowerChar(c: char): char {
    if 'A' <= c <= 'Z' then c - 'A' + 'a' else c
  }

  function Lower(s: string): string {
    if s == "" then "" else [LowerChar(s[0])] + Lower(s[1..])
  }

  // ---- convert_value and the conversion of parse_number ----

  function ToNumber(num: Numbers, text: string): Option<Value> {
    if '.' in text || 'e' in Lower(text) then
      match num.toFloat(text) case Some(x) => Some(Float(x)) case None => None
    else
      match num.toInt(text) case Some(n) => Some(Int(n)) case None => None
  }

  function ConvertValue(num: Numbers, text: string): Value {
    var low := Lower(text);
    if low == "true" then Bool(true)
    else if low == "false" then Bool(false)
    else if low == "null" then Null
    else match ToNumber(num, text) case Some(v) => v case None => Str(text)
  }

  function Escaped(c: char): char {
    if c == 'n' then '\n' else if c == 't' then '\t' else if c == 'r' then '\r' else c
  }

  // ---- concrete syntax ----

  datatype Piece = Raw(c: char) | Escape(c: char)
  datatype Text = Quoted(quote: char, pieces: seq<Piece>) | Triple(quote: char, body: string)

  datatype Tree =
    | OfText(text: Text)
    | Word(word: string)
    | Number(digits: string)
    | Array(blank: string, elems: Elems)
    | Object(blank: string, members: Members)

  // Elements of an array after the opening bracket and its blanks; the last comma is optional.
  datatype Elems =
    | NoElems
    | LastElem(elem: Tree, after: string)
    | MoreElems(elem: Tree, after: string, afterComma: string, rest: Elems)

  datatype Members =
    | NoMembers
    | LastMember(key: Text, beforeColon: string, afterColon: string, value: Tree, after: string)
    | MoreMembers(key: Text, beforeColon: string, afterColon: string, value: Tree, after: string,
                  afterComma: string, rest: Members)

  function RenderPieces(p: seq<Piece>): string {
    if p == [] then ""
    else (match p[0] case Raw(c) => [c] case Escape(c) => ['\\', c]) + RenderPieces(p[1..])
  }

  function RenderText(t: Text): string {
    match t
    case Quoted(q, p) => [q] + RenderPieces(p) + [q]
    case Triple(q, b) => [q, q, q] + b + [q, q, q]
  }

  function Render(t: Tree): string {
    match t
    case OfText(x) => RenderText(x)
    case Word(w) => w
    case Number(d) => d
    case Array(b, e) => "[" + b + RenderElems(e) + "]"
    case Object(b, m) => "{" + b + RenderMembers(m) + "}"
  }

  function RenderElems(e: Elems): string {
    match e
    case NoElems => ""
    case LastElem(v, a) => Render(v) + a
    case MoreElems(v, a, c, rest) => Render(v) + a + "," + c + RenderElems(rest)
  }

  function RenderMembers(m: Members): string {
    match m
    case NoMembers => ""
    case LastMember(k, b, c, v, a) => RenderText(k) + b + ":" + c + Render(v) + a
    case MoreMembers(k, b, c, v, a, d, rest) =>
      RenderText(k) + b + ":" + c + Render(v) + a + "," + d + RenderMembers(rest)
  }

  // ---- which trees are texts of the language ----

  // s[pos : pos + n], which Python cuts at the end of the text.
  function Slice(s: string, pos: nat, n: nat): string
    requires pos <= |s|
  {
    if pos + n <= |s| then s[pos..pos + n] else s[pos..]
  }

  predicate Blanks(s: string) { forall i :: 0 <= i < |s| ==> IsBlank(s[i]) }

  predicate ValidText(t: Text) {
    && IsQuote(t.quote)
    && match t
       case Quoted(q, p) => forall i :: 0 <= i < |p| ==> p[i].Raw? ==> p[i].c != q && p[i].c != '\\'
       case Triple(q, b) =>
         // the three closing quotes are the first three quotes in a row
         forall i :: 0 <= i < |b| ==> Slice(b + [q, q, q], i, 3) != [q, q, q]
  }

  predicate ValidNumber(num: Numbers, d: string) {
    && d != "" && StartsNumber(d[0]) && (forall i :: 0 <= i < |d| ==> InNumber(d[i]))
    && ToNumber(num, d).Some?
  }

  predicate Valid(num: Numbers, t: Tree) {
    match t
    case OfText(x) => ValidText(x)
    case Word(w) => Lower(w) == "true" || Lower(w) == "false" || Lower(w) == "null"
    case Number(d) => ValidNumber(num, d)
    case Array(b, e) => Blanks(b) && ValidElems(num, e)
    case Object(b, m) => Blanks(b) && ValidMembers(num, m)
  }

  predicate ValidElems(num: Numbers, e: Elems) {
    match e
    case NoElems => true
    case LastElem(v, a) => Valid(num, v) && Blanks(a)
    case MoreElems(v, a, c, rest) => Valid(num, v) && Blanks(a) && Blanks(c) && ValidElems(num, rest)
  }

  predicate ValidMembers(num: Numbers, m: Members) {
    match m
    case NoMembers => true
    case LastMember(k, b, c, v, a) =>
      k.Quoted? && ValidText(k) && Blanks(b) && Blanks(c) && Valid(num, v) && Blanks(a)
    case MoreMembers(k, b, c, v, a, d, rest) =>
      && k.Quoted? && ValidText(k) && Blanks(b) && Blanks(c) && Valid(num, v) && Blanks(a) && Blanks(d)
      && ValidMembers(num, rest)
  }

  // ---- what a tree means ----

  function PiecesText(p: seq<Piece>): string {
    if p == [] then ""
    else [match p[0] case Raw(c) => c case Escape(c) => Escaped(c)] + PiecesText(p[1..])
  }

  function TextValue(num: Numbers, t: Text): Value {
    ConvertValue(num, match t case Quoted(_, p) => PiecesText(p) case Triple(_, b) => b)
  }

  function Meaning(num: Numbers, t: Tree): Value
    requires Valid(num, t)
  {
    match t
    case OfText(x) => TextValue(num, x)
    case Word(w) =>
      if Lower(w) == "true" then Bool(true) else if Lower(w) == "false" then Bool(false) else Null
    case Number(d) => ToNumber(num, d).value
    case Array(_, e) => List(ElemsMeaning(num, e, []))
    case Object(_, m) => Dict(MembersMeaning(num, m, []))
  }

  // The list after the elements have been appended one by one.
  function ElemsMeaning(num: Numbers, e: Elems, done: seq<Value>): seq<Value>
    requires ValidElems(num, e)
  {
    match e
    case NoElems => done
    case LastElem(v, _) => done + [Meaning(num, v)]
    case MoreElems(v, _, _, rest) => ElemsMeaning(num, rest, done + [Meaning(num, v)])
  }

  // The dict after the members have been assigned one by one.
  function MembersMeaning(num: Numbers, m: Members, done: seq<(Value, Value)>): seq<(Value, Value)>
    requires ValidMembers(num, m)
  {
    match m
    case NoMembers => done
    case LastMember(k, _, _, v, _) => Assign(done, TextValue(num, k), Meaning(num, v))
    case MoreMembers(k, _, _, v, _, _, rest) =>
      MembersMeaning(num, rest, Assign(done, TextValue(num, k), Meaning(num, v)))
  }
}
