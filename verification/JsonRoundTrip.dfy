// Printing a value and extracting it again.
module JsonRoundTrip {
  import opened JsonComplete
  import opened JsonExtract
  import opened JsonGrammar
  import opened JsonSyntax
  import opened Options
  import opened Strings

  // ---- printing ----

  function Decimal(n: int): string {
    if n < 0 then "-" + Digits(-n) else Digits(n)
  }

  function Body(t: Text): string {
    match t case Quoted(_, p) => PiecesText(p) case Triple(_, b) => b
  }

  // t is a way of printing v: any quotes, escapes and blanks, commas allowed before a closing bracket.
  predicate Prints(t: Tree, v: Value)
    decreases t
  {
    match v
    case Null => t.Word? && Lower(t.word) == "null"
    case Bool(b) => t.Word? && Lower(t.word) == (if b then "true" else "false")
    case Int(n) => t.Number? && t.digits == Decimal(n)
    case Float(_) => false
    case Str(s) => t.OfText? && ValidText(t.text) && Body(t.text) == s
    case List(items) => t.Array? && Blanks(t.blank) && PrintsElems(t.elems, items)
    case Dict(entries) => t.Object? && Blanks(t.blank) && PrintsMembers(t.members, entries)
  }

  predicate PrintsElems(e: Elems, items: seq<Value>)
    decreases e
  {
    match e
    case NoElems => items == []
    case LastElem(v, a) => |items| == 1 && Prints(v, items[0]) && Blanks(a)
    case MoreElems(v, a, c, rest) =>
      |items| >= 1 && Prints(v, items[0]) && Blanks(a) && Blanks(c) && PrintsElems(rest, items[1..])
  }

  predicate PrintsKey(k: Text, key: Value) {
    key.Str? && k.Quoted? && ValidText(k) && PiecesText(k.pieces) == key.s
  }

  predicate PrintsMembers(m: Members, entries: seq<(Value, Value)>)
    decreases m
  {
    match m
    case NoMembers => entries == []
    case LastMember(k, b, c, v, a) =>
      |entries| == 1 && PrintsKey(k, entries[0].0) && Prints(v, entries[0].1) && Blanks(a) && Blanks(b) && Blanks(c)
    case MoreMembers(k, b, c, v, a, d, rest) =>
      && |entries| >= 1 && PrintsKey(k, entries[0].0) && Prints(v, entries[0].1)
      && Blanks(a) && Blanks(b) && Blanks(c) && Blanks(d) && PrintsMembers(rest, entries[1..])
  }

  // ---- what comes back ----

  // Every integer in v is short enough for int() to read its decimal form.
  predicate Readable(num: Numbers, v: Value) {
    match v
    case Int(n) => num.toInt(Decimal(n)) == Some(n)
    case List(items) => forall i :: 0 <= i < |items| ==> Readable(num, items[i])
    case Dict(entries) => forall i :: 0 <= i < |entries| ==> Readable(num, entries[i].1)
    case _ => true
  }

  // The value extract_json gives back: strings, and keys too, go through convert_value.
  function Converted(num: Numbers, v: Value): Value
    decreases v
  {
    match v
    case Str(s) => ConvertValue(num, s)
    case List(items) => List(ConvertedItems(num, items))
    case Dict(entries) => Dict(ConvertedEntries(num, entries, []))
    case _ => v
  }

  function ConvertedItems(num: Numbers, items: seq<Value>): seq<Value>
    decreases items
  {
    if items == [] then [] else [Converted(num, items[0])] + ConvertedItems(num, items[1..])
  }

  function ConvertedKey(num: Numbers, key: Value): Value {
    if key.Str? then ConvertValue(num, key.s) else key
  }

  function ConvertedEntries(num: Numbers, entries: seq<(Value, Value)>, done: seq<(Value, Value)>)
    : seq<(Value, Value)>
    decreases entries
  {
    if entries == [] then done
    else
      var e := entries[0];
      assert (entries decreases to e) && (e decreases to e.1);
      ConvertedEntries(num, entries[1..], Assign(done, ConvertedKey(num, e.0), Converted(num, e.1)))
  }

  // v comes back unchanged: strings and keys are left alone by convert_value and no dict has two
  // keys that are equal.
  predicate Stable(num: Numbers, v: Value) {
    match v
    case Str(s) => ConvertValue(num, s) == v
    case List(items) => forall i :: 0 <= i < |items| ==> Stable(num, items[i])
    case Dict(entries) =>
      && (forall i :: 0 <= i < |entries| ==> ConvertedKey(num, entries[i].0) == entries[i].0)
      && (forall i :: 0 <= i < |entries| ==> Stable(num, entries[i].1))
      && (forall i, j :: 0 <= i < j < |entries| ==> !SameKey(entries[i].0, entries[j].0))
    case _ => true
  }

  // ---- a printed value means what comes back ----

  lemma {:induction false} LowerKeeps(s: string)
    requires forall i :: 0 <= i < |s| ==> LowerChar(s[i]) == s[i]
    ensures Lower(s) == s
  {
    if s != "" { LowerKeeps(s[1..]); }
  }

  lemma {:induction false} DecimalReads(num: Numbers, n: int)
    requires num.toInt(Decimal(n)) == Some(n)
    ensures ValidNumber(num, Decimal(n)) && ToNumber(num, Decimal(n)) == Some(Int(n))
  {
    var d := Decimal(n);
    DigitsAreDecimals(if n < 0 then -n else n);
    assert forall i :: 0 <= i < |d| ==> '0' <= d[i] <= '9' || d[i] == '-';
    LowerKeeps(d);
  }

  // Quotes around a word or a number make no difference: the string means what the bare text does.
  lemma {:induction false} QuotesIgnored(num: Numbers, t: Tree, text: Text)
    requires Valid(num, t) && (t.Word? || t.Number?) && ValidText(text) && Body(text) == Render(t)
    ensures TextValue(num, text) == Meaning(num, t)
  {
    if t.Number? { LowerAt(t.digits, 0); }
  }

  lemma {:induction false} PrintedMeans(num: Numbers, t: Tree, v: Value)
    requires Prints(t, v) && Readable(num, v)
    ensures Valid(num, t) && Meaning(num, t) == Converted(num, v)
    decreases t
  {
    match t
    case Number(d) => DecimalReads(num, v.n);
    case Array(b, e) =>
      ElemsMean(num, e, v.items, []);
      assert [] + ConvertedItems(num, v.items) == ConvertedItems(num, v.items);
    case Object(b, m) => MembersMean(num, m, v.entries, []);
    case Word(w) =>
    case OfText(x) =>
  }

  lemma {:induction false} ElemsMean(num: Numbers, e: Elems, items: seq<Value>, done: seq<Value>)
    requires PrintsElems(e, items) && forall i :: 0 <= i < |items| ==> Readable(num, items[i])
    ensures ValidElems(num, e) && ElemsMeaning(num, e, done) == done + ConvertedItems(num, items)
    decreases e
  {
    match e
    case NoElems =>
    case LastElem(v, a) =>
      PrintedMeans(num, v, items[0]);
      assert ConvertedItems(num, items) == [Converted(num, items[0])];
    case MoreElems(v, a, c, rest) =>
      PrintedMeans(num, v, items[0]);
      ElemsMean(num, rest, items[1..], done + [Meaning(num, v)]);
  }

  lemma {:induction false} MembersMean(num: Numbers, m: Members, entries: seq<(Value, Value)>,
                                       done: seq<(Value, Value)>)
    requires PrintsMembers(m, entries) && forall i :: 0 <= i < |entries| ==> Readable(num, entries[i].1)
    ensures ValidMembers(num, m) && MembersMeaning(num, m, done) == ConvertedEntries(num, entries, done)
    decreases m
  {
    hide Assign, ConvertValue;
    match m
    case NoMembers =>
    case LastMember(k, b, c, v, a) =>
      PrintedMeans(num, v, entries[0].1);
      assert entries[1..] == [];
    case MoreMembers(k, b, c, v, a, d, rest) =>
      PrintedMeans(num, v, entries[0].1);
      MembersMean(num, rest, entries[1..],
                  Assign(done, ConvertedKey(num, entries[0].0), Converted(num, entries[0].1)));
  }

  // ---- exactly the stable values come back unchanged ----

  predicate Apart(d: seq<(Value, Value)>, key: Value) {
    forall i :: 0 <= i < |d| ==> !SameKey(d[i].0, key)
  }

  predicate Distinct(d: seq<(Value, Value)>) {
    forall i, j :: 0 <= i < j < |d| ==> !SameKey(d[i].0, d[j].0)
  }

  lemma {:induction false} Assigned(d: seq<(Value, Value)>, key: Value, value: Value)
    ensures Apart(d, key) ==> Assign(d, key, value) == d + [(key, value)]
    ensures !Apart(d, key) ==> |Assign(d, key, value)| == |d|
  {
    if d != [] {
      Assigned(d[1..], key, value);
      if !SameKey(d[0].0, key) {
        assert Apart(d, key) <==> Apart(d[1..], key) by {
          if Apart(d[1..], key) {
            forall i | 0 <= i < |d| ensures !SameKey(d[i].0, key) {
              if i > 0 { assert d[i] == d[1..][i - 1]; }
            }
          }
        }
      }
    }
  }

  lemma {:induction false} ItemsConverted(num: Numbers, items: seq<Value>)
    ensures |ConvertedItems(num, items)| == |items|
    ensures forall i :: 0 <= i < |items| ==> ConvertedItems(num, items)[i] == Converted(num, items[i])
  {
    hide Converted;
    if items != [] { ItemsConverted(num, items[1..]); }
  }

  function ConvertedEntry(num: Numbers, e: (Value, Value)): (Value, Value) {
    (ConvertedKey(num, e.0), Converted(num, e.1))
  }

  // No entry was lost: every one was appended, converted, under a key of its own.
  predicate AllKept(num: Numbers, entries: seq<(Value, Value)>, done: seq<(Value, Value)>) {
    var all := ConvertedEntries(num, entries, done);
    && Distinct(all) && |all| == |done| + |entries| && all[..|done|] == done
    && forall i :: 0 <= i < |entries| ==> all[|done| + i] == ConvertedEntry(num, entries[i])
  }

  lemma {:induction false} EntriesAtMost(num: Numbers, entries: seq<(Value, Value)>, done: seq<(Value, Value)>)
    ensures |ConvertedEntries(num, entries, done)| <= |done| + |entries|
    decreases entries
  {
    hide Assign, Converted, ConvertedKey;
    if entries != [] {
      var k, v := ConvertedKey(num, entries[0].0), Converted(num, entries[0].1);
      Assigned(done, k, v);
      EntriesAtMost(num, entries[1..], Assign(done, k, v));
    }
  }

  lemma {:induction false} EntriesKept(num: Numbers, entries: seq<(Value, Value)>, done: seq<(Value, Value)>)
    requires Distinct(done) && |ConvertedEntries(num, entries, done)| == |done| + |entries|
    ensures AllKept(num, entries, done)
    decreases entries
  {
    hide Assign, Converted, ConvertedKey, SameKey;
    if entries != [] {
      var k, v := ConvertedKey(num, entries[0].0), Converted(num, entries[0].1);
      Assigned(done, k, v);
      var next := Assign(done, k, v);
      EntriesAtMost(num, entries[1..], next);
      EntriesKept(num, entries[1..], next);
      var all := ConvertedEntries(num, entries, done);
      assert all[..|done|] == all[..|next|][..|done|];
      assert all[|done|] == all[..|next|][|done|];
      forall i | 0 <= i < |entries| ensures all[|done| + i] == ConvertedEntry(num, entries[i]) {
        if i > 0 { assert entries[i] == entries[1..][i - 1]; }
      }
    }
  }

  // Entries that are left alone, under keys apart from each other and from those already there.
  lemma {:induction false} EntriesUnchanged(num: Numbers, entries: seq<(Value, Value)>,
                                            done: seq<(Value, Value)>)
    requires Distinct(done + entries)
    requires forall i :: 0 <= i < |entries| ==> ConvertedEntry(num, entries[i]) == entries[i]
    ensures ConvertedEntries(num, entries, done) == done + entries
    decreases entries
  {
    hide Assign, Converted, ConvertedKey, SameKey;
    if entries == [] {
      assert done + entries == done;
    } else {
      var all, next := done + entries, done + [entries[0]];
      assert ConvertedEntry(num, entries[0]) == entries[0];
      forall i | 0 <= i < |done| ensures !SameKey(done[i].0, entries[0].0) {
        assert all[i] == done[i] && all[|done|] == entries[0];
      }
      Assigned(done, entries[0].0, entries[0].1);
      assert next + entries[1..] == all;
      EntriesUnchanged(num, entries[1..], next);
    }
  }

  lemma {:induction false} Unchanged(num: Numbers, v: Value)
    ensures Converted(num, v) == v <==> Stable(num, v)
    decreases v
  {
    match v
    case List(items) =>
      ItemsConverted(num, items);
      forall i | 0 <= i < |items| ensures Converted(num, items[i]) == items[i] <==> Stable(num, items[i]) {
        Unchanged(num, items[i]);
      }
    case Dict(entries) =>
      forall i | 0 <= i < |entries|
        ensures Converted(num, entries[i].1) == entries[i].1 <==> Stable(num, entries[i].1)
      {
        Unchanged(num, entries[i].1);
      }
      DictUnchanged(num, entries);
    case _ =>
  }

  lemma {:induction false} DictUnchanged(num: Numbers, entries: seq<(Value, Value)>)
    ensures ConvertedEntries(num, entries, []) == entries
       <==> Distinct(entries) && forall i :: 0 <= i < |entries| ==> ConvertedEntry(num, entries[i]) == entries[i]
  {
    hide Assign, Converted, ConvertedKey, SameKey;
    if ConvertedEntries(num, entries, []) == entries {
      EntriesKept(num, entries, []);
    }
    if Distinct(entries) && forall i :: 0 <= i < |entries| ==> ConvertedEntry(num, entries[i]) == entries[i] {
      assert [] + entries == entries;
      EntriesUnchanged(num, entries, []);
    }
  }

  // ---- the round trip ----

  // However a dict is printed and whatever stands around it, extract_json gives back the dict
  // with its strings converted; the dict itself exactly when it is stable.
  lemma {:induction false} RoundTrip(num: Numbers, v: Value, t: Tree, pre: string, post: string)
    requires v.Dict? && Prints(t, v) && Readable(num, v) && Lacks(pre, '{') && Lacks(post, '}')
    ensures ExtractJson(num, pre + Render(t) + post) == Some(Converted(num, v))
    ensures ExtractJson(num, pre + Render(t) + post) == Some(v) <==> Stable(num, v)
  {
    hide ExtractJson, Render, Stable, Readable;
    PrintedMeans(num, t, v);
    Accepts(num, pre + Render(t) + post, Converted(num, v), pre, t, post);
    Unchanged(num, v);
  }

  // ---- every plain value can be printed ----

  predicate Plain(v: Value) {
    match v
    case Float(_) => false
    case List(items) => forall i :: 0 <= i < |items| ==> Plain(items[i])
    case Dict(entries) => forall i :: 0 <= i < |entries| ==> entries[i].0.Str? && Plain(entries[i].1)
    case _ => true
  }

  // The pieces JSON writes a string with.
  function Escapes(s: string): seq<Piece> {
    if s == "" then []
    else
      [match s[0]
       case '\n' => Escape('n')
       case '\t' => Escape('t')
       case '\r' => Escape('r')
       case '"' => Escape('"')
       case '\\' => Escape('\\')
       case c => Raw(c)] + Escapes(s[1..])
  }

  lemma {:induction false} EscapesMean(s: string)
    ensures PiecesText(Escapes(s)) == s && ValidText(Quoted('"', Escapes(s)))
  {
    if s != "" {
      EscapesMean(s[1..]);
      var x := Escapes(s);
      assert x[1..] == Escapes(s[1..]) && [s[0]] + s[1..] == s;
      forall i | 0 <= i < |x| && x[i].Raw? ensures x[i].c != '"' && x[i].c != '\\' {
        if i > 0 { assert x[i] == x[1..][i - 1]; }
      }
    }
  }

  lemma {:induction false} CanPrint(v: Value) returns (t: Tree)
    requires Plain(v)
    ensures Prints(t, v)
    decreases v
  {
    match v
    case Null =>
      LowerKeeps("null");
      t := Word("null");
    case Bool(b) =>
      LowerKeeps("true");
      LowerKeeps("false");
      t := Word(if b then "true" else "false");
    case Int(n) => t := Number(Decimal(n));
    case Str(s) =>
      EscapesMean(s);
      t := OfText(Quoted('"', Escapes(s)));
    case List(items) =>
      var e := CanPrintItems(items);
      t := Array("", e);
    case Dict(entries) =>
      var m := CanPrintEntries(entries);
      t := Object("", m);
  }

  lemma {:induction false} CanPrintItems(items: seq<Value>) returns (e: Elems)
    requires forall i :: 0 <= i < |items| ==> Plain(items[i])
    ensures PrintsElems(e, items)
    decreases items
  {
    if items == [] {
      e := NoElems;
    } else {
      var t := CanPrint(items[0]);
      if |items| == 1 {
        e := LastElem(t, "");
      } else {
        var rest := CanPrintItems(items[1..]);
        e := MoreElems(t, "", "", rest);
      }
    }
  }

  lemma {:induction false} CanPrintEntries(entries: seq<(Value, Value)>) returns (m: Members)
    requires forall i :: 0 <= i < |entries| ==> entries[i].0.Str? && Plain(entries[i].1)
    ensures PrintsMembers(m, entries)
    decreases entries
  {
    if entries == [] {
      m := NoMembers;
    } else {
      var entry := entries[0];
      assert (entries decreases to entry) && (entry decreases to entry.1);
      var t := CanPrint(entry.1);
      var k := Quoted('"', Escapes(entries[0].0.s));
      EscapesMean(entries[0].0.s);
      if |entries| == 1 {
        m := LastMember(k, "", "", t, "");
      } else {
        var rest := CanPrintEntries(entries[1..]);
        m := MoreMembers(k, "", "", t, "", "", rest);
      }
    }
  }
}
