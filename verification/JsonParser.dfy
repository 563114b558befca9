// The recursive parser of `extract_json` as functions of the text and a position, and the loops
// of the source proved to compute them.
module JsonParser {
  import opened JsonSyntax
  import opened Options

  // Each parser raises (ValueError) or returns a value and the position after it.
  datatype Parse<+T> = Raise | Return(value: T, pos: nat)

  // ---- leaves ----

  function SkipBlanks(s: string, pos: nat): (r: nat)
    requires pos <= |s|
    ensures pos <= r <= |s|
    ensures r < |s| ==> !IsBlank(s[r])
    decreases |s| - pos
  {
    if pos < |s| && IsBlank(s[pos]) then SkipBlanks(s, pos + 1) else pos
  }

  // The loop of parse_string from a position behind the opening quote.
  function StringFrom(num: Numbers, s: string, pos: nat, quote: char, done: string): (r: Parse<Value>)
    requires pos <= |s|
    ensures r.Return? ==> pos < r.pos <= |s|
    decreases |s| - pos
  {
    if pos == |s| then Raise
    else if s[pos] == '\\' then
      if pos + 1 >= |s| then Raise
      else StringFrom(num, s, pos + 2, quote, done + [Escaped(s[pos + 1])])
    else if s[pos] == quote then Return(ConvertValue(num, done), pos + 1)
    else StringFrom(num, s, pos + 1, quote, done + [s[pos]])
  }

  function ParseString(num: Numbers, s: string, pos: nat): (r: Parse<Value>)
    requires pos < |s| && IsQuote(s[pos])
    ensures r.Return? ==> pos < r.pos <= |s|
  {
    StringFrom(num, s, pos + 1, s[pos], "")
  }

  function TripleFrom(num: Numbers, s: string, pos: nat, quote: char, done: string): (r: Parse<Value>)
    requires pos <= |s|
    ensures r.Return? ==> pos < r.pos <= |s|
    decreases |s| - pos
  {
    if pos == |s| then Raise
    else if Slice(s, pos, 3) == [quote, quote, quote] then Return(ConvertValue(num, done), pos + 3)
    else TripleFrom(num, s, pos + 1, quote, done + [s[pos]])
  }

  predicate TripleAt(s: string, pos: nat)
    requires pos <= |s|
  {
    Slice(s, pos, 3) == "'''" || Slice(s, pos, 3) == "\"\"\""
  }

  function NumberEnd(s: string, pos: nat): (r: nat)
    requires pos <= |s|
    ensures pos <= r <= |s|
    ensures forall i :: pos <= i < r ==> InNumber(s[i])
    ensures r < |s| ==> !InNumber(s[r])
    decreases |s| - pos
  {
    if pos < |s| && InNumber(s[pos]) then NumberEnd(s, pos + 1) else pos
  }

  function ParseNumber(num: Numbers, s: string, pos: nat): (r: Parse<Value>)
    requires pos < |s| && StartsNumber(s[pos])
    ensures r.Return? ==> pos < r.pos <= |s|
  {
    var end := NumberEnd(s, pos);
    match ToNumber(num, s[pos..end]) case Some(v) => Return(v, end) case None => Raise
  }

  // ---- values ----

  function ParseValue(num: Numbers, s: string, start: nat): (r: Parse<Value>)
    requires start <= |s|
    ensures r.Return? ==> start < r.pos <= |s|
    decreases |s| - start, 2
  {
    var pos := SkipBlanks(s, start);
    if pos >= |s| then Raise
    else if s[pos] == '{' then ParseObject(num, s, pos)
    else if s[pos] == '[' then ParseArray(num, s, pos)
    else if TripleAt(s, pos) then TripleFrom(num, s, pos + 3, s[pos], "")
    else if IsQuote(s[pos]) then ParseString(num, s, pos)
    else
      match WordAt(s, pos)
      case Some(w) => Return(w.0, pos + w.1)
      case None => if StartsNumber(s[pos]) then ParseNumber(num, s, pos) else Raise
  }

  // The three words of parse_value in any case, with their lengths.
  function WordAt(s: string, pos: nat): (r: Option<(Value, nat)>)
    requires pos < |s|
    ensures r.Some? ==> 1 <= r.value.1 <= |s| - pos
  {
    LowerLength(Slice(s, pos, 4));
    LowerLength(Slice(s, pos, 5));
    if Lower(Slice(s, pos, 4)) == "true" then Some((Bool(true), 4))
    else if Lower(Slice(s, pos, 5)) == "false" then Some((Bool(false), 5))
    else if Lower(Slice(s, pos, 4)) == "null" then Some((Null, 4))
    else None
  }

  function ParseArray(num: Numbers, s: string, pos: nat): (r: Parse<Value>)
    requires pos < |s| && s[pos] == '['
    ensures r.Return? ==> pos < r.pos <= |s|
    decreases |s| - pos, 1
  {
    ElemsFrom(num, s, SkipBlanks(s, pos + 1), [])
  }

  // The loop of parse_array.
  function ElemsFrom(num: Numbers, s: string, pos: nat, done: seq<Value>): (r: Parse<Value>)
    requires pos <= |s|
    ensures r.Return? ==> pos < r.pos <= |s|
    decreases |s| - pos, 3
  {
    if pos >= |s| then Raise
    else if s[pos] == ']' then Return(List(done), pos + 1)
    else
      var v := ParseValue(num, s, pos);
      if v.Raise? then Raise
      else
        var p := SkipBlanks(s, v.pos);
        if p < |s| && s[p] == ',' then ElemsFrom(num, s, SkipBlanks(s, p + 1), done + [v.value])
        else if p < |s| && s[p] == ']' then Return(List(done + [v.value]), p + 1)
        else Raise
  }

  function ParseObject(num: Numbers, s: string, pos: nat): (r: Parse<Value>)
    requires pos < |s| && s[pos] == '{'
    ensures r.Return? ==> pos < r.pos <= |s|
    decreases |s| - pos, 1
  {
    MembersFrom(num, s, SkipBlanks(s, pos + 1), [])
  }

  // parse_key and the colon behind it; returns the position of the value.
  function ParseKey(num: Numbers, s: string, pos: nat): (r: Parse<Value>)
    requires pos < |s|
    ensures r.Return? ==> pos < r.pos <= |s|
  {
    if !IsQuote(s[pos]) then Raise
    else
      var k := ParseString(num, s, pos);
      if k.Raise? then Raise
      else
        var p := SkipBlanks(s, k.pos);
        if p >= |s| || s[p] != ':' then Raise else Return(k.value, SkipBlanks(s, p + 1))
  }

  // The loop of parse_object.  It is only entered behind skipped blanks, so the two further
  // skips before the key do nothing and parse_key indexes inside the text.
  function MembersFrom(num: Numbers, s: string, pos: nat, done: seq<(Value, Value)>): (r: Parse<Value>)
    requires pos <= |s| && (pos < |s| ==> !IsBlank(s[pos]))
    ensures r.Return? ==> pos < r.pos <= |s|
    decreases |s| - pos, 3
  {
    if pos >= |s| then Raise
    else if s[pos] == '}' then Return(Dict(done), pos + 1)
    else
      var k := ParseKey(num, s, pos);
      if k.Raise? then Raise
      else
        var v := ParseValue(num, s, k.pos);
        if v.Raise? then Raise
        else
          var p, d := SkipBlanks(s, v.pos), Assign(done, k.value, v.value);
          if p < |s| && s[p] == ',' then MembersFrom(num, s, SkipBlanks(s, p + 1), d)
          else if p < |s| && s[p] == '}' then Return(Dict(d), p + 1)
          else Raise
  }

  lemma {:induction false} LowerLength(s: string)
    ensures |Lower(s)| == |s|
  {
    if s != "" { LowerLength(s[1..]); }
  }
}
