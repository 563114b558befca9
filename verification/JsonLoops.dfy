// `extract_json` in its own form: loops over a position, each proved to compute the function of
// JsonParser that the theorems are about.
module JsonLoops {
  import opened JsonExtract
  import opened JsonParser
  import opened JsonSyntax
  import opened Options

  method SkipWhitespace(s: string, start: nat) returns (pos: nat)
    requires start <= |s|
    ensures pos == SkipBlanks(s, start)
  {
    pos := start;
    while pos < |s| && IsBlank(s[pos])
      invariant start <= pos <= |s| && SkipBlanks(s, pos) == SkipBlanks(s, start)
    {
      pos := pos + 1;
    }
  }

  method ReadNumber(num: Numbers, s: string, start: nat) returns (r: Parse<Value>)
    requires start < |s| && StartsNumber(s[start])
    ensures r == ParseNumber(num, s, start)
  {
    hide ToNumber;
    var pos := start;
    while pos < |s| && InNumber(s[pos])
      invariant start <= pos <= |s| && NumberEnd(s, pos) == NumberEnd(s, start)
    {
      pos := pos + 1;
    }
    match ToNumber(num, s[start..pos])
    case Some(v) => r := Return(v, pos);
    case None => r := Raise;
  }

  method ReadString(num: Numbers, s: string, start: nat) returns (r: Parse<Value>)
    requires start < |s| && IsQuote(s[start])
    ensures r == ParseString(num, s, start)
  {
    hide ConvertValue;
    var quote, pos, result := s[start], start + 1, "";
    while pos < |s|
      invariant start < pos <= |s| && StringFrom(num, s, pos, quote, result) == ParseString(num, s, start)
    {
      var c := s[pos];
      if c == '\\' {
        pos := pos + 1;
        if pos >= |s| { return Raise; }
        result := result + [Escaped(s[pos])];
      } else if c == quote {
        return Return(ConvertValue(num, result), pos + 1);
      } else {
        result := result + [c];
      }
      pos := pos + 1;
    }
    r := Raise;
  }

  method ReadTripleQuoted(num: Numbers, s: string, start: nat) returns (r: Parse<Value>)
    requires start <= |s|
    ensures TripleAt(s, start) ==> start + 3 <= |s| && r == TripleFrom(num, s, start + 3, s[start], "")
    ensures !TripleAt(s, start) ==> r == Raise
  {
    hide ConvertValue;
    var quotes;
    if Slice(s, start, 3) == "'''" {
      quotes := "'''";
    } else if Slice(s, start, 3) == "\"\"\"" {
      quotes := "\"\"\"";
    } else {
      return Raise;
    }
    assert s[start] == Slice(s, start, 3)[0] && quotes == [s[start], s[start], s[start]];
    var pos, result := start + 3, "";
    while pos < |s|
      invariant pos <= |s|
      invariant TripleFrom(num, s, pos, s[start], result) == TripleFrom(num, s, start + 3, s[start], "")
    {
      if Slice(s, pos, 3) == quotes {
        return Return(ConvertValue(num, result), pos + 3);
      }
      result := result + [s[pos]];
      pos := pos + 1;
    }
    r := Raise;
  }

  lemma {:induction false} NothingToSkip(s: string, pos: nat)
    requires pos < |s| && !IsBlank(s[pos])
    ensures SkipBlanks(s, pos) == pos
  {}

  method ReadKey(num: Numbers, s: string, start: nat) returns (r: Parse<Value>)
    requires start < |s| && !IsBlank(s[start])
    ensures r == if IsQuote(s[start]) then ParseString(num, s, start) else Raise
  {
    var pos := SkipWhitespace(s, start);
    if IsQuote(s[pos]) {
      r := ReadString(num, s, pos);
    } else {
      r := Raise;
    }
  }

  method ReadObject(num: Numbers, s: string, start: nat) returns (r: Parse<Value>)
    requires start < |s| && s[start] == '{'
    ensures r == ParseObject(num, s, start)
    decreases |s| - start, 0
  {
    hide ParseValue, ParseString, Assign, ElemsFrom, SkipBlanks;
    var obj: seq<(Value, Value)> := [];
    var pos := SkipWhitespace(s, start + 1);
    while pos < |s| && s[pos] != '}'
      invariant start < pos <= |s| && (pos < |s| ==> !IsBlank(s[pos]))
      invariant MembersFrom(num, s, pos, obj) == ParseObject(num, s, start)
      decreases |s| - pos
    {
      NothingToSkip(s, pos);
      pos := SkipWhitespace(s, pos);
      var key := ReadKey(num, s, pos);
      if key.Raise? { return Raise; }
      pos := SkipWhitespace(s, key.pos);
      if pos >= |s| || s[pos] != ':' { return Raise; }
      pos := SkipWhitespace(s, pos + 1);
      var value := ReadValue(num, s, pos);
      if value.Raise? { return Raise; }
      obj := Assign(obj, key.value, value.value);
      pos := SkipWhitespace(s, value.pos);
      if pos < |s| && s[pos] == ',' {
        pos := SkipWhitespace(s, pos + 1);
      } else if pos < |s| && s[pos] == '}' {
        break;
      } else if pos < |s| && s[pos] != '}' {
        return Raise;
      }
    }
    if pos >= |s| || s[pos] != '}' { return Raise; }
    r := Return(Dict(obj), pos + 1);
  }

  method ReadArray(num: Numbers, s: string, start: nat) returns (r: Parse<Value>)
    requires start < |s| && s[start] == '['
    ensures r == ParseArray(num, s, start)
    decreases |s| - start, 0
  {
    hide ParseValue, MembersFrom;
    var list: seq<Value> := [];
    var pos := SkipWhitespace(s, start + 1);
    while pos < |s| && s[pos] != ']'
      invariant start < pos <= |s|
      invariant ElemsFrom(num, s, pos, list) == ParseArray(num, s, start)
      decreases |s| - pos
    {
      var value := ReadValue(num, s, pos);
      if value.Raise? { return Raise; }
      list := list + [value.value];
      pos := SkipWhitespace(s, value.pos);
      if pos < |s| && s[pos] == ',' {
        pos := SkipWhitespace(s, pos + 1);
      } else if pos < |s| && s[pos] == ']' {
        break;
      } else if pos < |s| && s[pos] != ']' {
        return Raise;
      }
    }
    if pos >= |s| || s[pos] != ']' { return Raise; }
    r := Return(List(list), pos + 1);
  }

  method ReadValue(num: Numbers, s: string, start: nat) returns (r: Parse<Value>)
    requires start <= |s|
    ensures r == ParseValue(num, s, start)
    decreases |s| - start, 1
  {
    hide ParseObject, ParseArray, ParseString, ParseNumber, TripleFrom;
    var pos := SkipWhitespace(s, start);
    if pos >= |s| {
      r := Raise;
    } else if s[pos] == '{' {
      r := ReadObject(num, s, pos);
    } else if s[pos] == '[' {
      r := ReadArray(num, s, pos);
    } else if Slice(s, pos, 3) == "'''" || Slice(s, pos, 3) == "\"\"\"" {
      r := ReadTripleQuoted(num, s, pos);
    } else if IsQuote(s[pos]) {
      r := ReadString(num, s, pos);
    } else if Lower(Slice(s, pos, 4)) == "true" {
      r := Return(Bool(true), pos + 4);
    } else if Lower(Slice(s, pos, 5)) == "false" {
      r := Return(Bool(false), pos + 5);
    } else if Lower(Slice(s, pos, 4)) == "null" {
      r := Return(Null, pos + 4);
    } else if StartsNumber(s[pos]) {
      r := ReadNumber(num, s, pos);
    } else {
      r := Raise;
    }
  }

  method Extract(num: Numbers, s: string) returns (r: Option<Value>)
    ensures r == ExtractJson(num, s)
  {
    hide ParseValue;
    if FirstOpen(s) == |s| { return None; }
    var start, end := FirstOpen(s), CloseEnd(s);
    var core := StripRight(StripLeft(if start <= end then s[start..end] else ""));
    var result := ReadValue(num, core, 0);
    if result.Raise? { return None; }
    var pos := SkipWhitespace(core, result.pos);
    if pos != |core| { return None; }
    r := Some(result.value);
  }
}
